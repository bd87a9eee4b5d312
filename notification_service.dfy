/** `NotificationService`: the stats projection, the per-event effects, the toast options,
    the query parameters of the list request and the topic wiring. The WebSocket service,
    HTTP, toastr and audio are collaborators: calls on them are recorded as effects, in order,
    and the answers they give are arguments of the methods that receive them. */
module Notifications {
  import opened Wrappers
  import opened Text
  import opened Rx
  import opened NotificationModel
  import opened Toastr

  const ApiUrl := "http://localhost:8080/api/v1/notifications"
  const SoundPath := "assets/sounds/notification.mp3"

  function NotificationsTopic(userId: string): string {
    "/topic/notifications/" + userId
  }

  function StatsTopic(userId: string): string {
    "/topic/notification-stats/" + userId
  }

  const ZeroStats := NotificationStats(0, 0, 0, 0)

  const DefaultToastOptions := ToastOptions(5000, true, true, "toast-top-right", true)

  /** `showToastNotification`: urgent events are errors that never auto-dismiss, normal ones
      warnings, low and unrecognised priorities information; every toast is titled
      "New <type>", carries the message and differs from the default options at most in
      its timeout. */
  function ToastFor(n: Notification): (t: Toast)
    ensures t.title == "New " + TypeName(n.notificationType) && t.message == n.message
    ensures t.options.Some? && t.options.value == DefaultToastOptions.(timeOut := t.options.value.timeOut)
    ensures t.kind == ErrorToast <==> n.priority == Urgent
    ensures t.kind == WarningToast <==> n.priority == Normal
    ensures t.kind == InfoToast <==> n.priority != Urgent && n.priority != Normal
    ensures t.options.value.timeOut == (if n.priority == Urgent then 0 else 5000)
  {
    var title := "New " + TypeName(n.notificationType);
    match n.priority
    case Urgent => Toast(ErrorToast, n.message, title, Some(DefaultToastOptions.(timeOut := 0)))
    case Normal => Toast(WarningToast, n.message, title, Some(DefaultToastOptions))
    case Low => Toast(InfoToast, n.message, title, Some(DefaultToastOptions))
    case OtherPriority(_) => Toast(InfoToast, n.message, title, Some(DefaultToastOptions))
  }

  /** A filter property's value: `undefined`, `null`, or a value whose `toString()` is `text`. */
  datatype FilterValue = Undefined | Null | Defined(text: string)

  /** One own property of the filter object, in `Object.keys` order. */
  datatype FilterEntry = FilterEntry(key: string, value: FilterValue)

  /** The keys of a JavaScript object are distinct. */
  predicate DistinctKeys(e: seq<FilterEntry>) {
    forall a, b :: 0 <= a < b < |e| ==> e[a].key != e[b].key
  }

  /** The query parameters of `getNotifications`: exactly the keys whose value is neither
      `null` nor `undefined`, each mapped to its value's string form. */
  function QueryParams(e: seq<FilterEntry>): (params: map<string, string>)
    ensures forall k :: k in params <==> exists i :: 0 <= i < |e| && e[i].key == k && e[i].value.Defined?
    ensures DistinctKeys(e) ==> forall i :: 0 <= i < |e| && e[i].value.Defined? ==> params[e[i].key] == e[i].value.text
  {
    if e == [] then map[]
    else
      var init, last := e[..|e| - 1], e[|e| - 1];
      assert forall i :: 0 <= i < |init| ==> init[i] == e[i];
      var before := QueryParams(init);
      if last.value.Defined? then before[last.key := last.value.text] else before
  }

  /** The loop of `getNotifications`: `params.set(key, value.toString())` for each key whose
      value is present; no filter at all gives no parameters. */
  method BuildParams(filter: Option<seq<FilterEntry>>) returns (params: map<string, string>)
    ensures params == QueryParams(if filter.Some? then filter.value else [])
    ensures filter.None? ==> params == map[]
  {
    params := map[];
    if filter.Some? {
      var entries := filter.value;
      var i := 0;
      while i < |entries|
        invariant 0 <= i <= |entries|
        invariant params == QueryParams(entries[..i])
      {
        assert entries[..i + 1][..i] == entries[..i];
        if entries[i].value.Defined? {
          params := params[entries[i].key := entries[i].value.text];
        }
        i := i + 1;
      }
      assert entries[..i] == entries;
    }
  }

  function OptionalEntry<T>(key: string, value: Option<T>, show: T -> string): FilterEntry {
    FilterEntry(key, if value.Some? then Defined(show(value.value)) else Undefined)
  }

  function SortDirectionName(d: SortDirection): string {
    match d
    case Asc => "ASC"
    case Desc => "DESC"
  }

  /** A typed `NotificationFilter` as an object; a property left out reads as `undefined`.
      `showDate` is `Date.prototype.toString`, which depends on the locale and time zone. */
  function FilterEntries(f: NotificationFilter, showDate: int -> string): seq<FilterEntry> {
    [ OptionalEntry("status", f.status, StatusName),
      OptionalEntry<NotificationType>("type", f.notificationType, TypeName),
      OptionalEntry<Priority>("priority", f.priority, PriorityName),
      OptionalEntry("startDate", f.startDate, showDate),
      OptionalEntry("endDate", f.endDate, showDate),
      OptionalEntry("page", f.page, IntToDecimal),
      OptionalEntry("size", f.size, IntToDecimal),
      OptionalEntry("sortBy", f.sortBy, (s: string) => s),
      OptionalEntry("sortDirection", f.sortDirection, SortDirectionName) ]
  }

  /** With distinct keys, the parameter for the key of entry `i` is present iff that entry's
      value is, and then it is the value's text. */
  lemma ParamOfEntry(e: seq<FilterEntry>, i: nat)
    requires DistinctKeys(e) && i < |e|
    ensures e[i].key in QueryParams(e) <==> e[i].value.Defined?
    ensures e[i].value.Defined? ==> QueryParams(e)[e[i].key] == e[i].value.text
  {
    if e[i].key in QueryParams(e) {
      var j :| 0 <= j < |e| && e[j].key == e[i].key && e[j].value.Defined?;
      assert j == i;
    }
  }

  const FilterKeys := ["status", "type", "priority", "startDate", "endDate", "page", "size", "sortBy", "sortDirection"]

  lemma FilterEntriesDistinct(f: NotificationFilter, showDate: int -> string)
    ensures |FilterEntries(f, showDate)| == |FilterKeys|
    ensures forall i :: 0 <= i < |FilterKeys| ==> FilterEntries(f, showDate)[i].key == FilterKeys[i]
    ensures DistinctKeys(FilterEntries(f, showDate))
  {
    var e := FilterEntries(f, showDate);
    forall a, b | 0 <= a < b < |e|
      ensures e[a].key != e[b].key
    {
      assert e[a].key == FilterKeys[a] && e[b].key == FilterKeys[b];
    }
  }

  /** For a typed filter, each enumeration property set becomes one parameter holding the
      member's value, and a property left out gives none. */
  lemma TypedFilterEnumParams(f: NotificationFilter, showDate: int -> string)
    ensures var params := QueryParams(FilterEntries(f, showDate));
      && ("status" in params <==> f.status.Some?)
      && (f.status.Some? ==> params["status"] == StatusName(f.status.value))
      && ("type" in params <==> f.notificationType.Some?)
      && (f.notificationType.Some? ==> params["type"] == TypeName(f.notificationType.value))
      && ("priority" in params <==> f.priority.Some?)
      && (f.priority.Some? ==> params["priority"] == PriorityName(f.priority.value))
      && ("sortDirection" in params <==> f.sortDirection.Some?)
      && (f.sortDirection.Some? ==> params["sortDirection"] == SortDirectionName(f.sortDirection.value))
  {
    var e := FilterEntries(f, showDate);
    FilterEntriesDistinct(f, showDate);
    assert e[1] == FilterEntry("type", if f.notificationType.Some? then Defined(TypeName(f.notificationType.value)) else Undefined);
    assert e[2] == FilterEntry("priority", if f.priority.Some? then Defined(PriorityName(f.priority.value)) else Undefined);
    ParamOfEntry(e, 0);
    ParamOfEntry(e, 1);
    ParamOfEntry(e, 2);
    ParamOfEntry(e, 8);
  }

  /** Dates, paging and sorting fields likewise: page and size as decimal text. */
  lemma TypedFilterOtherParams(f: NotificationFilter, showDate: int -> string)
    ensures var params := QueryParams(FilterEntries(f, showDate));
      && ("startDate" in params <==> f.startDate.Some?)
      && (f.startDate.Some? ==> params["startDate"] == showDate(f.startDate.value))
      && ("endDate" in params <==> f.endDate.Some?)
      && (f.endDate.Some? ==> params["endDate"] == showDate(f.endDate.value))
      && ("page" in params <==> f.page.Some?)
      && (f.page.Some? ==> params["page"] == IntToDecimal(f.page.value))
      && ("size" in params <==> f.size.Some?)
      && (f.size.Some? ==> params["size"] == IntToDecimal(f.size.value))
      && ("sortBy" in params <==> f.sortBy.Some?)
      && (f.sortBy.Some? ==> params["sortBy"] == f.sortBy.value)
  {
    var e := FilterEntries(f, showDate);
    FilterEntriesDistinct(f, showDate);
    ParamOfEntry(e, 3);
    ParamOfEntry(e, 4);
    ParamOfEntry(e, 5);
    ParamOfEntry(e, 6);
    ParamOfEntry(e, 7);
  }

  /** A typed filter yields no parameter outside its nine property names. */
  lemma TypedFilterKeys(f: NotificationFilter, showDate: int -> string)
    ensures forall k :: k in QueryParams(FilterEntries(f, showDate)) ==> k in FilterKeys
  {
    FilterEntriesDistinct(f, showDate);
  }

  /** What the service asks of its collaborators, in call order. */
  datatype Effect =
    | Emitted(notification: Notification)
    | Toasted(toast: Toast)
    | StatsRequested
    | SoundPlayed(path: string)
    | ConnectRequested(token: string)
    | Subscribed(topic: string)
    | NotificationsRequested(params: map<string, string>)
    | MarkReadRequested(notificationId: string)
    | MarkAllReadRequested
    | SocketDisconnected

  /** `handleNewNotification`: one emission on `notification$`, one toast, one stats reload,
      one sound, in this order. */
  function NewNotificationEffects(n: Notification): (es: seq<Effect>)
    ensures |es| == 4 && es[0] == Emitted(n) && es[1] == Toasted(ToastFor(n))
    ensures es[2] == StatsRequested && es[3] == SoundPlayed(SoundPath)
  {
    [Emitted(n), Toasted(ToastFor(n)), StatsRequested, SoundPlayed(SoundPath)]
  }

  /** `initializeWebSocket`: the two per-user topics are subscribed only when the connect
      result is `true`. */
  function ConnectEffects(userId: string, token: string, connected: bool): (es: seq<Effect>)
    ensures 1 <= |es| && es[0] == ConnectRequested(token)
    ensures connected ==> es == [ConnectRequested(token), Subscribed(NotificationsTopic(userId)), Subscribed(StatsTopic(userId))]
    ensures !connected ==> es == [ConnectRequested(token)]
  {
    [ConnectRequested(token)] + if connected then [Subscribed(NotificationsTopic(userId)), Subscribed(StatsTopic(userId))] else []
  }

  /** The number of stats reloads in an effect log. */
  function StatsReloads(es: seq<Effect>): nat {
    if es == [] then 0 else (if es[0] == StatsRequested then 1 else 0) + StatsReloads(es[1..])
  }

  lemma {:induction false} StatsReloadsAppend(a: seq<Effect>, b: seq<Effect>)
    ensures StatsReloads(a + b) == StatsReloads(a) + StatsReloads(b)
  {
    if a == [] {
      assert a + b == b;
    } else {
      assert (a + b)[1..] == a[1..] + b;
      StatsReloadsAppend(a[1..], b);
    }
  }

  /** Each inbound notification adds exactly one stats reload to the log. */
  lemma OneReloadPerNotification(log: seq<Effect>, n: Notification)
    ensures StatsReloads(log + NewNotificationEffects(n)) == StatsReloads(log) + 1
  {
    var es := NewNotificationEffects(n);
    StatsReloadsAppend(log, es);
    assert es[3..][1..] == [];
    assert StatsReloads(es[3..]) == 0;
    assert es[2..][1..] == es[3..];
    assert StatsReloads(es[2..]) == 1;
    assert es[1..][1..] == es[2..];
    assert StatsReloads(es[1..]) == 1;
    assert StatsReloads(es) == 1;
  }

  class NotificationService {
    var statsSubject: Behavior<NotificationStats>
    var effects: seq<Effect>

    /** Before any update the four counters are zero. */
    constructor ()
      ensures statsSubject == Create(ZeroStats) && GetCurrentStats() == ZeroStats
      ensures effects == []
    {
      statsSubject := Create(ZeroStats);
      effects := [];
    }

    /** `getCurrentStats`: the last record pushed, or the zeros the subject started with. */
    function GetCurrentStats(): (stats: NotificationStats)
      reads this
      ensures statsSubject.emitted != [] ==> stats == statsSubject.emitted[|statsSubject.emitted| - 1]
      ensures statsSubject.emitted == [] ==> stats == statsSubject.initial
    {
      statsSubject.Value()
    }

    /** `initializeWebSocket` with the value the connect observable emits. */
    method InitializeWebSocket(userId: string, token: string, connected: bool)
      modifies this`effects
      ensures effects == old(effects) + ConnectEffects(userId, token, connected)
    {
      effects := effects + [ConnectRequested(token)];
      if connected {
        effects := effects + [Subscribed(NotificationsTopic(userId))];
        effects := effects + [Subscribed(StatsTopic(userId))];
      }
    }

    /** The stats topic's handler: the received record replaces the stats wholesale. */
    method OnStatsMessage(stats: NotificationStats)
      modifies this`statsSubject
      ensures statsSubject == old(statsSubject).Next(stats) && GetCurrentStats() == stats
    {
      statsSubject := statsSubject.Next(stats);
    }

    /** The notification topic's handler. */
    method HandleNewNotification(n: Notification)
      modifies this`effects
      ensures effects == old(effects) + NewNotificationEffects(n)
    {
      effects := effects + [Emitted(n)];
      effects := effects + [Toasted(ToastFor(n))];
      LoadNotificationStats();
      effects := effects + [SoundPlayed(SoundPath)];
    }

    /** `loadNotificationStats().subscribe()`: the request; the answer arrives in `CompleteStatsLoad`. */
    method LoadNotificationStats()
      modifies this`effects
      ensures effects == old(effects) + [StatsRequested]
    {
      effects := effects + [StatsRequested];
    }

    /** The stats request's answer replaces the stats wholesale. */
    method CompleteStatsLoad(stats: NotificationStats)
      modifies this`statsSubject
      ensures statsSubject == old(statsSubject).Next(stats) && GetCurrentStats() == stats
    {
      statsSubject := statsSubject.Next(stats);
    }

    method GetNotifications(filter: Option<seq<FilterEntry>>) returns (params: map<string, string>)
      modifies this`effects
      ensures params == QueryParams(if filter.Some? then filter.value else [])
      ensures effects == old(effects) + [NotificationsRequested(params)]
    {
      params := BuildParams(filter);
      effects := effects + [NotificationsRequested(params)];
    }

    /** `markAsRead` with whether the request succeeded: success reloads the stats once. */
    method MarkAsRead(notificationId: string, succeeded: bool)
      modifies this`effects
      ensures effects == old(effects) + [MarkReadRequested(notificationId)] + (if succeeded then [StatsRequested] else [])
    {
      effects := effects + [MarkReadRequested(notificationId)];
      if succeeded {
        LoadNotificationStats();
      }
    }

    method MarkAllAsRead(succeeded: bool)
      modifies this`effects
      ensures effects == old(effects) + [MarkAllReadRequested] + (if succeeded then [StatsRequested] else [])
    {
      effects := effects + [MarkAllReadRequested];
      if succeeded {
        LoadNotificationStats();
      }
    }

    method Disconnect()
      modifies this`effects
      ensures effects == old(effects) + [SocketDisconnected]
    {
      effects := effects + [SocketDisconnected];
    }
  }
}
