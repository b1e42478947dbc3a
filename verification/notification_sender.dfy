/**
 * The send policy of DefaultNotificationSender as its tests pin it down.
 *
 * `Send` registers the notification, builds the display commands it
 * qualifies for (system first, then in-app) and executes them in order, one
 * notifier call and one outcome per command. The foreground rule that may
 * hold back a system command is not visible; it enters as the verdict
 * `systemSuppressed`, and the one fact the tests fix about it is that a
 * Critical notification is never held back.
 */
module NotificationSender {
  import opened Notifications
  import opened NotificationRegistry

  datatype Command =
    | DisplaySystemNotification(id: NotificationId, notification: Notification)
    | DisplayInAppNotification(id: NotificationId, notification: Notification)

  /** Notifiers in the tests always succeed, so only `Success` is produced. */
  datatype Outcome = Success(command: Command)

  /** A `show(id, notification)` call on one of the two notifiers. */
  datatype NotifierCall =
    | ShowSystem(id: NotificationId, notification: Notification)
    | ShowInApp(id: NotificationId, notification: Notification)

  /** Feature-flag verdicts for the two channels. */
  datatype FeatureFlags = FeatureFlags(systemEnabled: bool, inAppEnabled: bool)

  const AllEnabled: FeatureFlags := FeatureFlags(true, true)

  datatype SendResult = SendResult(outcomes: seq<Outcome>, calls: seq<NotifierCall>, registry: Registry)

  /** Whether the system channel displays this notification. */
  predicate SystemQualifies(n: Notification, flags: FeatureFlags, systemSuppressed: bool) {
    n.IsSystemNotification() && flags.systemEnabled && (n.severity == Critical || !systemSuppressed)
  }

  predicate InAppQualifies(n: Notification, flags: FeatureFlags) {
    n.IsInAppNotification() && flags.inAppEnabled
  }

  /** The ordered commands: system before in-app. */
  function BuildCommands(n: Notification, id: NotificationId, flags: FeatureFlags, systemSuppressed: bool): (cmds: seq<Command>)
    ensures |cmds| <= 2
    ensures DisplaySystemNotification(id, n) in cmds <==> SystemQualifies(n, flags, systemSuppressed)
    ensures DisplayInAppNotification(id, n) in cmds <==> InAppQualifies(n, flags)
    ensures forall c :: c in cmds ==> c.id == id && c.notification == n
    ensures |cmds| == 2 ==> cmds[0].DisplaySystemNotification? && cmds[1].DisplayInAppNotification?
  {
    (if SystemQualifies(n, flags, systemSuppressed) then [DisplaySystemNotification(id, n)] else [])
    + (if InAppQualifies(n, flags) then [DisplayInAppNotification(id, n)] else [])
  }

  /** The notifier call a command makes. */
  function CallOf(c: Command): (call: NotifierCall)
    ensures call.id == c.id && call.notification == c.notification
    ensures call.ShowSystem? <==> c.DisplaySystemNotification?
  {
    match c
    case DisplaySystemNotification(id, n) => ShowSystem(id, n)
    case DisplayInAppNotification(id, n) => ShowInApp(id, n)
  }

  /** Execute commands in order; each emits its outcome after its call. */
  function Execute(cmds: seq<Command>): (r: (seq<Outcome>, seq<NotifierCall>))
    ensures |r.0| == |cmds| && |r.1| == |cmds|
    ensures forall i :: 0 <= i < |cmds| ==> r.0[i] == Success(cmds[i]) && r.1[i] == CallOf(cmds[i])
  {
    if cmds == [] then ([], [])
    else
      var rest := Execute(cmds[1..]);
      ([Success(cmds[0])] + rest.0, [CallOf(cmds[0])] + rest.1)
  }

  function Send(r: Registry, n: Notification, flags: FeatureFlags, systemSuppressed: bool): (res: SendResult)
    ensures res.registry == Register(r, n).registry
    ensures |res.outcomes| == |res.calls|
    ensures forall i :: 0 <= i < |res.outcomes| ==>
              && res.outcomes[i].command.id == Register(r, n).id
              && res.calls[i] == CallOf(res.outcomes[i].command)
  {
    var reg := Register(r, n);
    var cmds := BuildCommands(n, reg.id, flags, systemSuppressed);
    var executed := Execute(cmds);
    SendResult(executed.0, executed.1, reg.registry)
  }

  /** How many calls went to the system notifier, and how many to the in-app one. */
  function SystemShows(calls: seq<NotifierCall>): nat {
    if calls == [] then 0 else (if calls[0].ShowSystem? then 1 else 0) + SystemShows(calls[1..])
  }

  function InAppShows(calls: seq<NotifierCall>): nat {
    if calls == [] then 0 else (if calls[0].ShowInApp? then 1 else 0) + InAppShows(calls[1..])
  }

  /**
   * A system-only notification: exactly one outcome, a Success wrapping a
   * system display command; the system notifier is shown once, the in-app
   * notifier never.
   */
  lemma SendSystemOnly(r: Registry, n: Notification, systemSuppressed: bool)
    requires n.channels == SystemOnly
    requires n.severity == Critical || !systemSuppressed
    ensures var res := Send(r, n, AllEnabled, systemSuppressed);
            && |res.outcomes| == 1
            && res.outcomes[0].command.DisplaySystemNotification?
            && SystemShows(res.calls) == 1 && InAppShows(res.calls) == 0
  {
    var res := Send(r, n, AllEnabled, systemSuppressed);
    assert res.calls == [CallOf(res.outcomes[0].command)];
  }

  /**
   * A Critical notification for both channels: two Successes, system first,
   * in-app second, whatever the foreground verdict; each notifier is shown
   * exactly once, with this notification.
   */
  lemma SendBothCritical(r: Registry, n: Notification, systemSuppressed: bool)
    requires n.channels == SystemAndInApp && n.severity == Critical
    ensures var res := Send(r, n, AllEnabled, systemSuppressed);
            && |res.outcomes| == 2
            && res.outcomes[0].command.DisplaySystemNotification?
            && res.outcomes[1].command.DisplayInAppNotification?
            && SystemShows(res.calls) == 1 && InAppShows(res.calls) == 1
            && res.calls[0].notification == n && res.calls[1].notification == n
  {
    var res := Send(r, n, AllEnabled, systemSuppressed);
    assert res.calls == [CallOf(res.outcomes[0].command), CallOf(res.outcomes[1].command)];
    var c := res.calls;
    assert |c| == 2 && c[0].ShowSystem? && c[1].ShowInApp?;
    assert c[1..][1..] == [];
    assert SystemShows(c[1..]) == 0 && InAppShows(c[1..]) == 1;
  }

  /**
   * An in-app-only notification: exactly one Success wrapping an in-app
   * display command; the system notifier is never shown.
   */
  lemma SendInAppOnly(r: Registry, n: Notification, systemSuppressed: bool)
    requires n.channels == InAppOnly
    ensures var res := Send(r, n, AllEnabled, systemSuppressed);
            && |res.outcomes| == 1
            && res.outcomes[0].command.DisplayInAppNotification?
            && SystemShows(res.calls) == 0 && InAppShows(res.calls) == 1
  {
    var res := Send(r, n, AllEnabled, systemSuppressed);
    assert res.calls == [CallOf(res.outcomes[0].command)];
  }

  /** Critical severity lets the system command through the foreground rule. */
  lemma CriticalNeverSuppressed(n: Notification, flags: FeatureFlags)
    requires n.severity == Critical
    ensures SystemQualifies(n, flags, true) == SystemQualifies(n, flags, false)
  {
  }
}
