/** The notification system: the list of in-app notifications (newest
    first, at most five), marking and dismissing them, the permission
    banner, and the return-visit reminder driven by three stored flags. */
module Notifications {
  import opened Common

  /** An in-app notification; its timestamp is the same instant as its id. */
  datatype Notification = Notification(id: int, message: string, kind: string, read: bool)

  /** How many notifications the list keeps. */
  const MaxShown := 5

  const HourMillis := 1000 * 60 * 60

  const ReturnMessage := "Welcome back! Check out the latest nuclear technology updates."
  const EnabledMessage := "Notifications enabled! We'll remind you about new updates and learning opportunities."
  const BlockedMessage := "Notifications blocked. You can enable them anytime in your browser settings."
  const FailedMessage := "Unable to enable notifications. Please check your browser settings."

  /** `[newNotification, ...prev.slice(0, 4)]`. */
  function Prepend(list: seq<Notification>, note: Notification): (r: seq<Notification>)
    ensures |r| == 1 + Min(|list|, MaxShown - 1) && |r| <= MaxShown
    ensures r[0] == note && r[1..] == list[..|r| - 1]
  {
    [note] + Take(list, MaxShown - 1)
  }

  function Min(a: int, b: int): int {
    if a <= b then a else b
  }

  /** `prev.map(n => n.id === id ? { ...n, read: true } : n)`. */
  function MarkRead(list: seq<Notification>, id: int): (r: seq<Notification>)
    ensures |r| == |list|
  {
    seq(|list|, i requires 0 <= i < |list| => if list[i].id == id then list[i].(read := true) else list[i])
  }

  /** Marking touches only the flag of the entries with that id: ids,
      messages, kinds and order stay, and every other flag is kept. */
  lemma {:induction false} MarkReadEffect(list: seq<Notification>, id: int)
    ensures forall i :: 0 <= i < |list| ==>
      MarkRead(list, id)[i].id == list[i].id
      && MarkRead(list, id)[i].message == list[i].message
      && MarkRead(list, id)[i].kind == list[i].kind
      && MarkRead(list, id)[i].read == (list[i].read || list[i].id == id)
  {
  }

  /** Marking twice is marking once. */
  lemma {:induction false} MarkReadIdempotent(list: seq<Notification>, id: int)
    ensures MarkRead(MarkRead(list, id), id) == MarkRead(list, id)
  {
  }

  /** `prev.filter(n => n.id !== id)`, used by the close button and the auto-remove timer. */
  function Remove(list: seq<Notification>, id: int): (r: seq<Notification>)
    ensures forall n :: n in r <==> n in list && n.id != id
    ensures |r| <= |list|
  {
    Filter(list, (n: Notification) => n.id != id)
  }

  /** Removal keeps the others in their order and is idempotent. */
  lemma {:induction false} RemoveEffect(list: seq<Notification>, id: int)
    ensures IsSubsequence(Remove(list, id), list)
    ensures Remove(Remove(list, id), id) == Remove(list, id)
    ensures forall i :: 0 <= i < |Remove(list, id)| ==> Remove(list, id)[i].id != id
  {
    FilterIsSubsequence(list, (n: Notification) => n.id != id);
    RemoveAgain(list, id);
    assert forall i :: 0 <= i < |Remove(list, id)| ==> Remove(list, id)[i] in Remove(list, id);
  }

  lemma {:induction false} RemoveAgain(list: seq<Notification>, id: int)
    ensures Remove(Remove(list, id), id) == Remove(list, id)
  {
    if list != [] {
      RemoveAgain(list[1..], id);
      if list[0].id != id {
        assert Remove(list, id) == [list[0]] + Remove(list[1..], id);
        assert Remove(list, id)[1..] == Remove(list[1..], id);
      } else {
        assert Remove(list, id) == Remove(list[1..], id);
      }
    }
  }

  /** How long an in-app notification stays: errors longest, then warnings. */
  function AutoCloseTime(kind: string): (ms: nat)
    ensures kind == "error" ==> ms == 10000
    ensures kind == "warning" ==> ms == 8000
    ensures kind != "error" && kind != "warning" ==> ms == 6000
  {
    if kind == "error" then 10000 else if kind == "warning" then 8000 else 6000
  }

  /** Whole hours between two instants, rounded down (`Math.floor`). */
  function HoursSince(last: int, now: int): (h: int)
    ensures h * HourMillis <= now - last < (h + 1) * HourMillis
  {
    (now - last) / HourMillis
  }

  function NotificationIcon(kind: string): (icon: string)
    ensures kind !in {"success", "warning", "error", "info"} ==> icon == "ri-notification-line text-indigo-500"
  {
    if kind == "success" then "ri-check-circle-line text-green-500"
    else if kind == "warning" then "ri-alert-line text-yellow-500"
    else if kind == "error" then "ri-error-warning-line text-red-500"
    else if kind == "info" then "ri-information-line text-blue-500"
    else "ri-notification-line text-indigo-500"
  }

  function NotificationBg(kind: string): (classes: string)
    ensures kind !in {"success", "warning", "error", "info"} ==> classes == "bg-white border-gray-200"
  {
    if kind == "success" then "bg-green-50 border-green-200"
    else if kind == "warning" then "bg-yellow-50 border-yellow-200"
    else if kind == "error" then "bg-red-50 border-red-200"
    else if kind == "info" then "bg-blue-50 border-blue-200"
    else "bg-white border-gray-200"
  }

  /** The four known kinds have four different backgrounds, none the default. */
  lemma {:induction false} BackgroundsDistinct(a: string, b: string)
    requires a in {"success", "warning", "error", "info"}
    requires b in {"success", "warning", "error", "info"}
    requires a != b
    ensures NotificationBg(a) != NotificationBg(b) && NotificationBg(a) != "bg-white border-gray-200"
  {
    assert NotificationBg(a)[3] != NotificationBg(b)[3];
    assert NotificationBg(a)[3] != 'w';
  }

  /** The component with the browser around it. `browserPermission` is the
      browser's own permission; `permission` is the component's copy, which
      "Maybe Later" changes alone. The three `Option` fields are the stored
      `lastVisit`, `lastActivity` and `notificationSent24h` entries, and the
      two counters count system notifications shown. `constructorThrows`
      says whether the browser's `Notification` constructor throws when
      given `actions`, as the Notifications API Standard (WHATWG, the
      `Notification(title, options)` constructor steps) prescribes for
      non-persistent notifications; both page notifications pass actions. */
  class NotificationCenter {
    const isSupportedByBrowser: bool
    const constructorThrows: bool
    var browserPermission: string
    var permission: string
    var isSupported: bool
    var notifications: seq<Notification>
    var lastVisit: Option<int>
    var lastActivity: Option<int>
    var sent24h: Option<int>
    var returnNotificationsShown: nat
    var welcomeNotificationsShown: nat

    /** The list never holds more than five notifications. */
    ghost predicate Valid()
      reads this
    {
      |notifications| <= MaxShown
    }

    constructor (supported: bool, throws: bool, browserPermission: string, stored: Option<int>, sent: Option<int>)
      ensures isSupportedByBrowser == supported && constructorThrows == throws
      ensures this.browserPermission == browserPermission
      ensures permission == "default" && !isSupported && notifications == []
      ensures lastVisit == stored && lastActivity == stored && sent24h == sent
      ensures returnNotificationsShown == 0 && welcomeNotificationsShown == 0
      ensures Valid()
    {
      isSupportedByBrowser := supported;
      constructorThrows := throws;
      this.browserPermission := browserPermission;
      permission := "default";
      isSupported := false;
      notifications := [];
      lastVisit := stored;
      lastActivity := stored;
      sent24h := sent;
      returnNotificationsShown := 0;
      welcomeNotificationsShown := 0;
    }

    /** `addInAppNotification`: the new, unread entry goes first and the
        list keeps five; the returned time is when its timer removes it. */
    method AddInAppNotification(message: string, kind: Option<string>, now: int) returns (closeAfter: nat)
      requires Valid()
      modifies this`notifications
      ensures notifications == Prepend(old(notifications), Notification(now, message, if kind.Some? then kind.value else "info", false))
      ensures closeAfter == AutoCloseTime(if kind.Some? then kind.value else "info")
      ensures Valid()
      ensures browserPermission == old(browserPermission) && permission == old(permission)
      ensures isSupported == old(isSupported) && lastVisit == old(lastVisit) && lastActivity == old(lastActivity)
      ensures sent24h == old(sent24h) && returnNotificationsShown == old(returnNotificationsShown)
      ensures welcomeNotificationsShown == old(welcomeNotificationsShown)
    {
      var kindOrInfo := if kind.Some? then kind.value else "info";
      var note := Notification(now, message, kindOrInfo, false);
      notifications := Prepend(notifications, note);
      closeAfter := AutoCloseTime(kindOrInfo);
    }

    /** "Mark as read" on the entries with this id. */
    method MarkAsRead(id: int)
      requires Valid()
      modifies this`notifications
      ensures notifications == MarkRead(old(notifications), id)
      ensures Valid()
    {
      notifications := MarkRead(notifications, id);
    }

    /** The close button, and the auto-remove timer when it fires. */
    method Dismiss(id: int)
      requires Valid()
      modifies this`notifications
      ensures notifications == Remove(old(notifications), id)
      ensures Valid()
    {
      notifications := Remove(notifications, id);
    }

    /** `trackActivity`: both stored instants become now. */
    method TrackActivity(now: int)
      modifies this`lastVisit, this`lastActivity
      ensures lastVisit == Some(now) && lastActivity == Some(now)
      ensures sent24h == old(sent24h) && notifications == old(notifications)
      ensures returnNotificationsShown == old(returnNotificationsShown)
      ensures browserPermission == old(browserPermission) && permission == old(permission)
      ensures isSupported == old(isSupported)
    {
      lastVisit := Some(now);
      lastActivity := Some(now);
    }

    /** The reminder a return notification comes with: a system notification
        and an in-app one, both only with the browser's permission granted.
        `threw` reports that the system notification's constructor threw,
        which happens before either notification is shown. */
    method ShowReturnNotification(now: int) returns (threw: bool)
      requires Valid()
      modifies this`returnNotificationsShown, this`notifications
      ensures threw <==> browserPermission == "granted" && constructorThrows
      ensures browserPermission == "granted" && !constructorThrows ==>
        returnNotificationsShown == old(returnNotificationsShown) + 1
        && notifications == Prepend(old(notifications), Notification(now, ReturnMessage, "info", false))
      ensures browserPermission != "granted" || constructorThrows ==>
        returnNotificationsShown == old(returnNotificationsShown) && notifications == old(notifications)
      ensures lastVisit == old(lastVisit) && lastActivity == old(lastActivity) && sent24h == old(sent24h)
      ensures browserPermission == old(browserPermission) && permission == old(permission)
      ensures isSupported == old(isSupported)
      ensures Valid()
    {
      threw := false;
      if browserPermission == "granted" {
        if constructorThrows {
          threw := true;
          return;
        }
        returnNotificationsShown := returnNotificationsShown + 1;
        var _ := AddInAppNotification(ReturnMessage, Some("info"), now);
      }
    }

    /** `checkReturnVisit`: remind once a whole day has passed since the
        last visit if no reminder is on record and permission is granted;
        separately, forget the reminder once two whole days have passed.
        When the reminder's constructor throws, the exception leaves the
        check before anything is recorded or forgotten (`threw`). */
    method CheckReturnVisit(now: int) returns (threw: bool)
      requires Valid()
      modifies this`returnNotificationsShown, this`notifications, this`sent24h
      ensures lastVisit.None? ==> !threw && returnNotificationsShown == old(returnNotificationsShown) && sent24h == old(sent24h)
      ensures lastVisit.Some? ==> (
        var h := HoursSince(lastVisit.value, now);
        var notify := h >= 24 && old(sent24h).None? && browserPermission == "granted";
        (threw <==> notify && constructorThrows)
        && (threw ==> returnNotificationsShown == old(returnNotificationsShown) && sent24h == old(sent24h))
        && (!threw ==>
          returnNotificationsShown == old(returnNotificationsShown) + (if notify then 1 else 0)
          && sent24h == (if h >= 48 then None else if notify then Some(now) else old(sent24h))
          && (notify ==> notifications == Prepend(old(notifications), Notification(now, ReturnMessage, "info", false)))))
      ensures returnNotificationsShown == old(returnNotificationsShown) ==> notifications == old(notifications)
      ensures lastVisit == old(lastVisit) && lastActivity == old(lastActivity)
      ensures browserPermission == old(browserPermission) && permission == old(permission)
      ensures isSupported == old(isSupported)
      ensures Valid()
    {
      threw := false;
      if lastVisit.Some? {
        var hoursSince := HoursSince(lastVisit.value, now);
        if hoursSince >= 24 && sent24h.None? && browserPermission == "granted" {
          threw := ShowReturnNotification(now);
          if threw {
            return;
          }
          sent24h := Some(now);
        }
        if hoursSince >= 48 {
          sent24h := None;
        }
      }
    }

    /** The mount effect: adopt the browser's support and permission, record
        the visit, then check for a return visit. The check runs against the
        visit just recorded, so it never reminds. */
    method Mount(now: int)
      requires Valid()
      modifies this`isSupported, this`permission, this`lastVisit, this`lastActivity
      modifies this`returnNotificationsShown, this`notifications, this`sent24h
      ensures isSupportedByBrowser ==> isSupported && permission == browserPermission
      ensures !isSupportedByBrowser ==> isSupported == old(isSupported) && permission == old(permission)
      ensures lastVisit == Some(now) && lastActivity == Some(now)
      ensures returnNotificationsShown == old(returnNotificationsShown)
      ensures notifications == old(notifications) && sent24h == old(sent24h)
      ensures Valid()
    {
      if isSupportedByBrowser {
        isSupported := true;
        permission := browserPermission;
      }
      TrackActivity(now);
      assert HoursSince(now, now) == 0;
      var _ := CheckReturnVisit(now);
    }

    /** `requestPermission`: `result` is the browser's answer, or `None`
        when the request throws. Nothing happens without support. On a
        granted answer the welcome notification is built after the
        permission is stored; when its constructor throws, the handler's
        catch adds the error entry instead of the confirmation. */
    method RequestPermission(result: Option<string>, now: int)
      requires Valid()
      modifies this`browserPermission, this`permission, this`welcomeNotificationsShown, this`notifications
      ensures !isSupported ==> notifications == old(notifications) && permission == old(permission)
      ensures isSupported && result == Some("granted") && !constructorThrows ==>
        permission == "granted" && welcomeNotificationsShown == old(welcomeNotificationsShown) + 1
        && notifications == Prepend(old(notifications), Notification(now, EnabledMessage, "success", false))
      ensures isSupported && result == Some("granted") && constructorThrows ==>
        permission == "granted" && welcomeNotificationsShown == old(welcomeNotificationsShown)
        && notifications == Prepend(old(notifications), Notification(now, FailedMessage, "error", false))
      ensures isSupported && result.Some? && result.value != "granted" ==>
        permission == result.value && welcomeNotificationsShown == old(welcomeNotificationsShown)
        && notifications == Prepend(old(notifications), Notification(now, BlockedMessage, "warning", false))
      ensures isSupported && result.None? ==>
        permission == old(permission)
        && notifications == Prepend(old(notifications), Notification(now, FailedMessage, "error", false))
      ensures isSupported && result.Some? ==> browserPermission == result.value
      ensures !isSupported || result.None? ==> browserPermission == old(browserPermission)
      ensures !(isSupported && result == Some("granted") && !constructorThrows) ==>
        welcomeNotificationsShown == old(welcomeNotificationsShown)
      ensures isSupported == old(isSupported)
      ensures isSupported && result.Some? ==> (ShowsPermissionBanner() <==> result.value == "default")
      ensures Valid()
    {
      if !isSupported {
        return;
      }
      if result.None? {
        var _ := AddInAppNotification(FailedMessage, Some("error"), now);
        return;
      }
      browserPermission := result.value;
      permission := result.value;
      if result.value == "granted" {
        if constructorThrows {
          var _ := AddInAppNotification(FailedMessage, Some("error"), now);
          return;
        }
        welcomeNotificationsShown := welcomeNotificationsShown + 1;
        var _ := AddInAppNotification(EnabledMessage, Some("success"), now);
      } else {
        var _ := AddInAppNotification(BlockedMessage, Some("warning"), now);
      }
    }

    /** "Maybe Later" changes only the component's copy of the permission. */
    method MaybeLater()
      modifies this`permission
      ensures permission == "denied" && browserPermission == old(browserPermission)
      ensures notifications == old(notifications) && isSupported == old(isSupported)
      ensures !ShowsPermissionBanner()
    {
      permission := "denied";
    }

    /** The banner asking for permission: shown while the page is supported
        and the permission is still undecided. */
    predicate ShowsPermissionBanner()
      reads this
    {
      isSupported && permission == "default"
    }
  }

  /** A reminder after a day, then none on the next check while the flag is
      on record, and a fresh one after the flag is cleared at two days.
      When the constructor throws, no check gets as far as recording the
      flag, so every check after a day throws again and nothing is shown. */
  method ReminderCycle(throws: bool) returns (first: nat, second: nat, third: nat, firstThrew: bool, secondThrew: bool)
    ensures !throws ==> first == 1 && second == 1 && third == 2 && !firstThrew && !secondThrew
    ensures throws ==> first == 0 && second == 0 && third == 0 && firstThrew && secondThrew
  {
    var c := new NotificationCenter(true, throws, "granted", Some(0), None);
    firstThrew := c.CheckReturnVisit(24 * HourMillis);
    first := c.returnNotificationsShown;
    secondThrew := c.CheckReturnVisit(25 * HourMillis);
    second := c.returnNotificationsShown;
    var _ := c.CheckReturnVisit(48 * HourMillis);
    var _ := c.CheckReturnVisit(49 * HourMillis);
    third := c.returnNotificationsShown;
  }
}
