/** Daily reminder support: the persisted settings record, the permission
    status and how the operating system's status maps onto it, and the
    scheduler that keeps one repeating request under a fixed identifier. */
module HomeReminderNotifications {
  import opened Storage

  const DefaultHour := 20
  const DefaultMinute := 0

  /** `ReminderSettingsSnapshot`. */
  datatype ReminderSettingsSnapshot = ReminderSettingsSnapshot(isEnabled: bool, hour: int, minute: int)

  const DefaultReminderSettings := ReminderSettingsSnapshot(false, DefaultHour, DefaultMinute)

  /** The defaults: off, at 20:00. */
  lemma DefaultReminderIsOffAtEightPM()
    ensures !DefaultReminderSettings.isEnabled
    ensures DefaultReminderSettings.hour == 20 && DefaultReminderSettings.minute == 0
  {
  }

  type ReminderSettingsStore = SnapshotStore<ReminderSettingsSnapshot>

  datatype ReminderPermissionStatus = NotDetermined | Denied | Authorized {
    /** Scheduling is allowed only once the user has authorized it. */
    predicate AllowsScheduling() {
      this == Authorized
    }
  }

  lemma AllowsSchedulingOnlyWhenAuthorized(status: ReminderPermissionStatus)
    ensures status.AllowsScheduling() <==> status == Authorized
  {
  }

  /** The operating system's notification authorization status, including
      values added by future system versions. */
  datatype NotificationAuthorizationStatus =
    | SystemNotDetermined
    | SystemDenied
    | SystemAuthorized
    | SystemProvisional
    | SystemEphemeral
    | SystemUnknown(rawValue: int)

  /** The mapping in `authorizationStatus()`: every granting status
      (authorized, provisional, ephemeral) allows scheduling, only an
      undecided user reads as not determined, and everything else,
      unknown values included, reads as denied. */
  function PermissionStatusFor(status: NotificationAuthorizationStatus): (r: ReminderPermissionStatus)
    ensures r.AllowsScheduling() <==> status in {SystemAuthorized, SystemProvisional, SystemEphemeral}
    ensures r == NotDetermined <==> status == SystemNotDetermined
    ensures r == Denied <==> status == SystemDenied || status.SystemUnknown?
  {
    match status
    case SystemAuthorized | SystemProvisional | SystemEphemeral => Authorized
    case SystemDenied => Denied
    case SystemNotDetermined => NotDetermined
    case SystemUnknown(_) => Denied
  }

  const RequestIdentifier := "streakvoyage.dailyWorkoutReminder"

  /** A calendar trigger matching an hour and a minute of every day. */
  datatype CalendarTrigger = CalendarTrigger(hour: int, minute: int, repeats: bool)

  /** Pending notification requests, by identifier. */
  type PendingRequests = map<string, CalendarTrigger>

  /** The daily reminder scheduled at hour:minute. */
  function DailyTrigger(hour: int, minute: int): CalendarTrigger {
    CalendarTrigger(hour, minute, true)
  }

  /** `cancelDailyReminder()` on the pending requests: the reminder is gone,
      everything else stays. */
  function WithoutReminder(pending: PendingRequests): (r: PendingRequests)
    ensures RequestIdentifier !in r
    ensures forall id :: id in pending && id != RequestIdentifier ==> id in r && r[id] == pending[id]
    ensures forall id :: id in r ==> id in pending
  {
    pending - {RequestIdentifier}
  }

  /** A successful `scheduleDailyReminder(hour:minute:)` on the pending
      requests: the old reminder, if any, is replaced, not added to. */
  function WithReminder(pending: PendingRequests, hour: int, minute: int): (r: PendingRequests)
    ensures RequestIdentifier in r && r[RequestIdentifier] == DailyTrigger(hour, minute)
    ensures r.Keys == pending.Keys + {RequestIdentifier}
    ensures forall id :: id in pending && id != RequestIdentifier ==> r[id] == pending[id]
  {
    WithoutReminder(pending)[RequestIdentifier := DailyTrigger(hour, minute)]
  }

  /** Scheduling twice leaves only the second reminder: re-scheduling
      replaces, so at most one reminder is ever pending. */
  lemma RescheduleReplaces(pending: PendingRequests, h1: int, m1: int, h2: int, m2: int)
    ensures WithReminder(WithReminder(pending, h1, m1), h2, m2) == WithReminder(pending, h2, m2)
  {
  }

  /** Cancelling twice is cancelling once, and cancelling after scheduling
      leaves what cancelling alone leaves. */
  lemma CancelIdempotent(pending: PendingRequests, hour: int, minute: int)
    ensures WithoutReminder(WithoutReminder(pending)) == WithoutReminder(pending)
    ensures WithoutReminder(WithReminder(pending, hour, minute)) == WithoutReminder(pending)
  {
  }

  datatype ScheduleOutcome = Scheduled | AddFailed

  /** `UserNotificationDailyReminderScheduler` over the notification
      center's state: its authorization setting and its pending requests. */
  class DailyReminderScheduler {
    var systemStatus: NotificationAuthorizationStatus
    var pending: PendingRequests

    constructor (systemStatus: NotificationAuthorizationStatus, pending: PendingRequests)
      ensures this.systemStatus == systemStatus && this.pending == pending
    {
      this.systemStatus := systemStatus;
      this.pending := pending;
    }

    /** `authorizationStatus()`. */
    method AuthorizationStatus() returns (r: ReminderPermissionStatus)
      ensures r.AllowsScheduling() <==> systemStatus in {SystemAuthorized, SystemProvisional, SystemEphemeral}
      ensures r == PermissionStatusFor(systemStatus)
    {
      r := PermissionStatusFor(systemStatus);
    }

    /** `scheduleDailyReminder(hour:minute:)`: removes the pending reminder,
        then adds the new request; `addSucceeds` is the notification
        center's answer to the add, and on failure the old reminder stays
        removed and the call throws. */
    method ScheduleDailyReminder(hour: int, minute: int, addSucceeds: bool) returns (outcome: ScheduleOutcome)
      modifies this
      ensures systemStatus == old(systemStatus)
      ensures outcome == (if addSucceeds then Scheduled else AddFailed)
      ensures addSucceeds ==> pending == WithReminder(old(pending), hour, minute)
      ensures !addSucceeds ==> pending == WithoutReminder(old(pending))
    {
      pending := WithoutReminder(pending);
      if !addSucceeds {
        return AddFailed;
      }
      pending := pending[RequestIdentifier := DailyTrigger(hour, minute)];
      outcome := Scheduled;
    }

    /** `cancelDailyReminder()`: a no-op when nothing is scheduled. */
    method CancelDailyReminder()
      modifies this
      ensures systemStatus == old(systemStatus)
      ensures pending == WithoutReminder(old(pending))
      ensures RequestIdentifier !in old(pending) ==> pending == old(pending)
    {
      pending := WithoutReminder(pending);
    }
  }
}
