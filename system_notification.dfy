/** `SystemNotificationComponent`: the system source guessed from the message, the icon,
    and the two badge classes. The source rules are given once as an ordered table; the
    component's `if` chain is proved to pick the first rule that matches. */
module SystemNotification {
  import opened Text
  import opened NotificationModel

  const MachineMonitoring := "Machine Monitoring System"
  const MaintenanceScheduler := "Maintenance Scheduler"
  const ProductionMonitor := "Production Monitor"
  const TaskManagement := "Task Management System"
  const ShiftManager := "Shift Manager"
  const AutomatedSystem := "Automated System"

  /** A rule fires when the lower-cased message contains one of its keywords. */
  datatype SourceRule = SourceRule(keywords: seq<string>, source: string)

  /** The rules in the order the component tries them; `Automated System` is the fallback. */
  const SourceRules := [
    SourceRule(["panne", "machine"], MachineMonitoring),
    SourceRule(["maintenance"], MaintenanceScheduler),
    SourceRule(["production"], ProductionMonitor),
    SourceRule(["t\U{E2}che", "task"], TaskManagement),
    SourceRule(["shift", "\U{E9}quipe"], ShiftManager)
  ]

  predicate RuleMatches(r: SourceRule, text: string) {
    exists k :: 0 <= k < |r.keywords| && Includes(text, r.keywords[k])
  }

  /** A rule of one or two keywords matches when one of them occurs. */
  lemma MatchOfShortRule(r: SourceRule, text: string)
    requires 1 <= |r.keywords| <= 2
    ensures RuleMatches(r, text) <==>
              Includes(text, r.keywords[0]) || (|r.keywords| == 2 && Includes(text, r.keywords[1]))
  {
    if Includes(text, r.keywords[0]) {
      assert 0 < |r.keywords|;
    } else if |r.keywords| == 2 && Includes(text, r.keywords[1]) {
      assert 1 < |r.keywords|;
    }
  }

  /** The source of the first rule that matches `text`, or the fallback. */
  function FirstMatch(rules: seq<SourceRule>, text: string): string {
    if rules == [] then AutomatedSystem
    else if RuleMatches(rules[0], text) then rules[0].source
    else FirstMatch(rules[1..], text)
  }

  /** Rules that do not match can be dropped from the front. */
  lemma {:induction false} FirstMatchSkips(rules: seq<SourceRule>, n: nat, text: string)
    requires n <= |rules|
    requires forall i :: 0 <= i < n ==> !RuleMatches(rules[i], text)
    ensures FirstMatch(rules, text) == FirstMatch(rules[n..], text)
  {
    if n > 0 {
      assert rules[1..][n - 1..] == rules[n..];
      forall i | 0 <= i < n - 1
        ensures !RuleMatches(rules[1..][i], text)
      {
        assert rules[1..][i] == rules[i + 1];
      }
      FirstMatchSkips(rules[1..], n - 1, text);
    }
  }

  /** `FirstMatch` picks the rule of least index that matches, and the fallback only when none does. */
  lemma {:induction false} FirstMatchIsLeastMatch(rules: seq<SourceRule>, text: string)
    ensures (forall i :: 0 <= i < |rules| ==> !RuleMatches(rules[i], text)) ==> FirstMatch(rules, text) == AutomatedSystem
    ensures forall i :: 0 <= i < |rules| && RuleMatches(rules[i], text) && (forall j :: 0 <= j < i ==> !RuleMatches(rules[j], text))
                        ==> FirstMatch(rules, text) == rules[i].source
  {
    if rules != [] {
      FirstMatchIsLeastMatch(rules[1..], text);
      forall i | 0 <= i < |rules| && RuleMatches(rules[i], text) && (forall j :: 0 <= j < i ==> !RuleMatches(rules[j], text))
        ensures FirstMatch(rules, text) == rules[i].source
      {
        if i > 0 {
          assert !RuleMatches(rules[0], text);
          assert rules[1..][i - 1] == rules[i];
          forall j | 0 <= j < i - 1
            ensures !RuleMatches(rules[1..][j], text)
          {
            assert rules[1..][j] == rules[j + 1];
          }
        }
      }
      if forall i :: 0 <= i < |rules| ==> !RuleMatches(rules[i], text) {
        forall i | 0 <= i < |rules[1..]|
          ensures !RuleMatches(rules[1..][i], text)
        {
          assert rules[1..][i] == rules[i + 1];
        }
      }
    }
  }

  /** The system source of a message: the first rule of the table on the lower-cased message. */
  function SystemSourceOf(message: string): (source: string)
    ensures source in {MachineMonitoring, MaintenanceScheduler, ProductionMonitor, TaskManagement, ShiftManager, AutomatedSystem}
  {
    FirstMatchInTable(SourceRules, ToLowerCase(message));
    FirstMatch(SourceRules, ToLowerCase(message))
  }

  /** Every source `FirstMatch` returns is one of the rules' sources or the fallback. */
  lemma {:induction false} FirstMatchInTable(rules: seq<SourceRule>, text: string)
    ensures FirstMatch(rules, text) == AutomatedSystem
         || exists i :: 0 <= i < |rules| && FirstMatch(rules, text) == rules[i].source
  {
    if rules != [] && !RuleMatches(rules[0], text) {
      FirstMatchInTable(rules[1..], text);
      if FirstMatch(rules[1..], text) != AutomatedSystem {
        var i :| 0 <= i < |rules[1..]| && FirstMatch(rules[1..], text) == rules[1..][i].source;
        assert rules[1..][i] == rules[i + 1];
      }
    }
  }

  /** A message mentioning both maintenance and a machine is attributed to machine monitoring. */
  lemma MachineOutranksMaintenance(message: string)
    requires Includes(ToLowerCase(message), "maintenance") && Includes(ToLowerCase(message), "machine")
    ensures SystemSourceOf(message) == MachineMonitoring
  {
    assert SourceRules[0].keywords[1] == "machine";
  }

  const UrgentIcon := "i-Warning-2 text-danger pulse-animation"
  const AlertIcon := "i-Bell-2 text-warning"
  const TaskIcon := "i-Calendar-4 text-info"
  const InfoIcon := "i-Information text-primary"

  /** The icon: urgency wins over the type; then alerts, tasks, and everything else. */
  function IconClassFor(p: PriorityValue, t: TypeValue): (icon: string)
    ensures icon == UrgentIcon <==> p == Urgent
    ensures icon == AlertIcon <==> p != Urgent && t == Alert
    ensures icon == TaskIcon <==> p != Urgent && t == Task
    ensures icon == InfoIcon <==> p != Urgent && t != Alert && t != Task
  {
    if p == Urgent then UrgentIcon
    else if t == Alert then AlertIcon
    else if t == Task then TaskIcon
    else InfoIcon
  }

  /** `getSystemBadgeClass`. */
  function SystemBadgeClass(p: PriorityValue): (badge: string)
    ensures badge == "badge-danger" <==> p == Urgent
    ensures badge != "badge-danger" ==> badge == "badge-info"
  {
    if p == Urgent then "badge-danger" else "badge-info"
  }

  /** `getPriorityClass`: total, with `badge-secondary` for a value outside the enumeration. */
  function PriorityClass(p: PriorityValue): (badge: string)
    ensures badge == "badge-danger" <==> p == Urgent
    ensures badge == "badge-warning" <==> p == Normal
    ensures badge == "badge-success" <==> p == Low
    ensures badge == "badge-secondary" <==> p.OtherPriority?
  {
    match p
    case Urgent => "badge-danger"
    case Normal => "badge-warning"
    case Low => "badge-success"
    case OtherPriority(_) => "badge-secondary"
  }

  /** The system badge and the priority badge agree exactly on urgent notifications. */
  lemma SystemBadgeAgreesOnlyWhenUrgent(p: PriorityValue)
    ensures SystemBadgeClass(p) == PriorityClass(p) <==> p == Urgent
  {
  }

  class SystemNotificationComponent {
    /** The `@Input` notification, bound before `ngOnInit` runs. */
    const notification: Notification
    var iconClass: string
    var systemSource: string

    constructor (notification: Notification)
      ensures this.notification == notification
      ensures iconClass == "" && systemSource == ""
    {
      this.notification := notification;
      iconClass := "";
      systemSource := "";
    }

    /** `ngOnInit`: both display fields are set. */
    method NgOnInit()
      modifies this`systemSource, this`iconClass
      ensures systemSource == SystemSourceOf(notification.message)
      ensures iconClass == IconClassFor(notification.priority, notification.notificationType)
    {
      DetermineSystemSource();
      SetIconClass();
    }

    /** `determineSystemSource`: the component's chain of `includes` tests. */
    method DetermineSystemSource()
      modifies this`systemSource
      ensures systemSource == SystemSourceOf(notification.message)
    {
      var message := ToLowerCase(notification.message);
      var rules := SourceRules;
      forall i | 0 <= i < |rules|
        ensures RuleMatches(rules[i], message) <==>
                  Includes(message, rules[i].keywords[0]) || (|rules[i].keywords| == 2 && Includes(message, rules[i].keywords[1]))
      {
        MatchOfShortRule(rules[i], message);
      }
      if Includes(message, "panne") || Includes(message, "machine") {
        systemSource := MachineMonitoring;
      } else if Includes(message, "maintenance") {
        FirstMatchSkips(rules, 1, message);
        systemSource := MaintenanceScheduler;
      } else if Includes(message, "production") {
        FirstMatchSkips(rules, 2, message);
        systemSource := ProductionMonitor;
      } else if Includes(message, "t\U{E2}che") || Includes(message, "task") {
        FirstMatchSkips(rules, 3, message);
        systemSource := TaskManagement;
      } else if Includes(message, "shift") || Includes(message, "\U{E9}quipe") {
        FirstMatchSkips(rules, 4, message);
        systemSource := ShiftManager;
      } else {
        FirstMatchSkips(rules, 5, message);
        systemSource := AutomatedSystem;
      }
    }

    /** `setIconClass`. */
    method SetIconClass()
      modifies this`iconClass
      ensures iconClass == IconClassFor(notification.priority, notification.notificationType)
    {
      if notification.priority == Urgent {
        iconClass := UrgentIcon;
      } else if notification.notificationType == Alert {
        iconClass := AlertIcon;
      } else if notification.notificationType == Task {
        iconClass := TaskIcon;
      } else {
        iconClass := InfoIcon;
      }
    }

    /** `getSystemBadgeClass` on the bound notification. */
    function GetSystemBadgeClass(): (badge: string)
      ensures badge == "badge-danger" <==> notification.priority == Urgent
      ensures badge != "badge-danger" ==> badge == "badge-info"
    {
      SystemBadgeClass(notification.priority)
    }
  }
}
