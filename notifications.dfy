/** The notification store of `useNotifications`: a list of notifications,
    newest first, with adding (validation, sanitising and a five-minute
    duplicate window), marking as read, removal, clearing, the unread count,
    the newest-first view and relative timestamps. Local storage is the
    `storage` field: every change that the source saves leaves the first 50
    notifications there. The clock, the random id and the locale date text
    are parameters. */
module Notifications {
  import opened Wrappers
  import opened Seqs
  import opened Text
  import Security

  /** The values of `NOTIFICATION_TYPES`. */
  const NotificationTypes: set<string> := {"reminder", "insight", "achievement", "alert", "tip"}

  /** `saveNotifications` keeps this many. */
  const MaxSaved := 50

  /** A notification with the same type and title created less than this
      long ago makes a new one a duplicate. */
  const DuplicateWindowMs := 300_000

  const MsPerMinute := 60_000
  const MsPerHour := 3_600_000
  const MsPerDay := 86_400_000

  datatype Action = Action(text: string, route: string)

  /** The `action` argument as given: a label and a route, each missing,
      falsy or not a string (None) or a string. */
  datatype ActionInput = ActionInput(text: Option<string>, route: Option<string>)

  /** A stored notification; `createdAt` is the creation time in
      milliseconds. */
  datatype Notification = Notification(
    id: string, kind: string, title: string, message: string,
    action: Option<Action>, read: bool, createdAt: int)

  /** The action kept on a new notification: a sanitised label of at most 50
      characters and a route starting with `/`, or none when either fails. */
  function ValidAction(action: Option<ActionInput>): (r: Option<Action>)
    ensures r.Some? ==>
      action.Some? && action.value.route == Some(r.value.route)
      && r.value.text == Security.SanitizeInput(action.value.text, 50)
      && 0 < |r.value.text| <= 50 && "/" <= r.value.route
    ensures (action.Some? && action.value.route.Some? && "/" <= action.value.route.value
      && Security.SanitizeInput(action.value.text, 50) != []) ==> r.Some?
  {
    match action
    case None => None
    case Some(a) =>
      var text := Security.SanitizeInput(a.text, 50);
      var route := if a.route.Some? && "/" <= a.route.value then a.route else None;
      if text != [] && route.Some? then Some(Action(text, route.value)) else None
  }

  /** The notification `addNotification` builds and returns, or None when
      the type is unknown or the sanitised title is empty. */
  function Build(kind: string, title: Option<string>, message: Option<string>,
                 action: Option<ActionInput>, id: string, now: int): (r: Option<Notification>)
    ensures r.None? <==> kind !in NotificationTypes || Security.SanitizeInput(title, 100) == []
    ensures r.Some? ==>
      r.value.kind == kind && r.value.id == id && r.value.createdAt == now
      && !r.value.read && r.value.action == ValidAction(action)
    ensures r.Some? ==>
      r.value.title == Security.SanitizeInput(title, 100) && 0 < |r.value.title| <= 100
      && r.value.message == Security.SanitizeInput(message, 500) && |r.value.message| <= 500
  {
    if kind !in NotificationTypes then None
    else
      var sanitizedTitle := Security.SanitizeInput(title, 100);
      var sanitizedMessage := Security.SanitizeInput(message, 500);
      if sanitizedTitle == [] then None
      else Some(Notification(id, kind, sanitizedTitle, sanitizedMessage, ValidAction(action), false, now))
  }

  /** Some notification has this type and title and is less than five
      minutes old. */
  predicate IsDuplicate(ns: seq<Notification>, kind: string, title: string, now: int) {
    exists k :: 0 <= k < |ns| && ns[k].kind == kind && ns[k].title == title
      && ns[k].createdAt > now - DuplicateWindowMs
  }

  /** The list after `addNotification` with a built notification `n`. */
  function AddTo(ns: seq<Notification>, n: Notification, now: int): (r: seq<Notification>)
    ensures IsDuplicate(ns, n.kind, n.title, now) ==> r == ns
    ensures !IsDuplicate(ns, n.kind, n.title, now) ==> |r| == |ns| + 1 && r[0] == n && r[1..] == ns
  {
    if IsDuplicate(ns, n.kind, n.title, now) then ns else [n] + ns
  }

  /** Once a notification has been added, adding the same type and title
      again less than five minutes later changes nothing. */
  lemma AddTwiceWithinWindow(ns: seq<Notification>, n: Notification, m: Notification, now: int, later: int)
    requires !IsDuplicate(ns, n.kind, n.title, now)
    requires n.createdAt == now && now <= later < now + DuplicateWindowMs
    requires m.kind == n.kind && m.title == n.title
    ensures AddTo(AddTo(ns, n, now), m, later) == AddTo(ns, n, now)
  {
    var r := AddTo(ns, n, now);
    assert r[0] == n;
    assert IsDuplicate(r, m.kind, m.title, later);
  }

  function HasId(id: string): Notification -> bool {
    (n: Notification) => n.id == id
  }

  function IsUnread(n: Notification): bool {
    !n.read
  }

  function MarkedRead(n: Notification): Notification {
    n.(read := true)
  }

  /** The list after `markAsRead(id)`. */
  function MarkRead(ns: seq<Notification>, id: string): (r: seq<Notification>)
    ensures |r| == |ns|
    ensures FirstIndex(ns, HasId(id)).None? ==> r == ns
    ensures FirstIndex(ns, HasId(id)).Some? ==>
      var k := FirstIndex(ns, HasId(id)).value;
      r[k] == ns[k].(read := true) && forall j :: 0 <= j < |ns| && j != k ==> r[j] == ns[j]
  {
    match FirstIndex(ns, HasId(id))
    case None => ns
    case Some(k) => ns[k := MarkedRead(ns[k])]
  }

  /** The list after `removeNotification(id)`. */
  function Remove(ns: seq<Notification>, id: string): (r: seq<Notification>)
    ensures FirstIndex(ns, HasId(id)).None? ==> r == ns
    ensures FirstIndex(ns, HasId(id)).Some? ==>
      var k := FirstIndex(ns, HasId(id)).value;
      |r| == |ns| - 1 && multiset(r) + multiset{ns[k]} == multiset(ns)
      && (forall j :: 0 <= j < k ==> r[j] == ns[j])
      && (forall j :: k <= j < |r| ==> r[j] == ns[j + 1])
  {
    match FirstIndex(ns, HasId(id))
    case None => ns
    case Some(k) => RemoveAt(ns, k)
  }

  /** What `saveNotifications` writes: the first 50 notifications. */
  function Saved(ns: seq<Notification>): (r: seq<Notification>)
    ensures |r| <= MaxSaved && r <= ns
    ensures |ns| <= MaxSaved ==> r == ns
    ensures |ns| > MaxSaved ==> |r| == MaxSaved
  {
    if |ns| <= MaxSaved then ns else ns[..MaxSaved]
  }

  /** `unreadCount`. */
  function Unread(ns: seq<Notification>): nat {
    Count(ns, IsUnread)
  }

  /** Replacing one element changes the count of unread ones by what the old
      and new element contribute. */
  lemma {:induction false} UnreadUpdate(ns: seq<Notification>, k: int, x: Notification)
    requires 0 <= k < |ns|
    ensures Unread(ns[k := x]) == Unread(ns) - (if ns[k].read then 0 else 1) + (if x.read then 0 else 1)
  {
    var r := ns[k := x];
    if k == 0 {
      assert r[1..] == ns[1..];
    } else {
      assert r[0] == ns[0];
      assert r[1..] == ns[1..][k - 1 := x];
      UnreadUpdate(ns[1..], k - 1, x);
    }
  }

  /** Marking a notification read lowers the unread count by one when it was
      unread, and changes nothing else about the count. */
  lemma MarkReadUnread(ns: seq<Notification>, id: string)
    ensures FirstIndex(ns, HasId(id)).Some? && !ns[FirstIndex(ns, HasId(id)).value].read ==>
      Unread(MarkRead(ns, id)) == Unread(ns) - 1
    ensures FirstIndex(ns, HasId(id)).None? || ns[FirstIndex(ns, HasId(id)).value].read ==>
      Unread(MarkRead(ns, id)) == Unread(ns)
  {
    match FirstIndex(ns, HasId(id))
    case None =>
    case Some(k) =>
      UnreadUpdate(ns, k, MarkedRead(ns[k]));
  }

  /** A list whose every notification is read has no unread ones. */
  lemma {:induction false} AllReadNoUnread(ns: seq<Notification>)
    requires forall k :: 0 <= k < |ns| ==> ns[k].read
    ensures Unread(ns) == 0
  {
    if |ns| > 0 {
      AllReadNoUnread(ns[1..]);
    }
  }

  function CreatedAt(n: Notification): int {
    n.createdAt
  }

  /** `sortedNotifications`: newest first, ties in list order. */
  function Newest(ns: seq<Notification>): seq<Notification> {
    SortDesc(ns, CreatedAt)
  }

  /** The newest-first view holds exactly the stored notifications, ordered
      by creation time, and keeps list order among equal times. */
  lemma NewestFacts(ns: seq<Notification>, t: int)
    ensures SortedDesc(Newest(ns), CreatedAt) && multiset(Newest(ns)) == multiset(ns)
    ensures Filter(Newest(ns), KeyIs(CreatedAt, t)) == Filter(ns, KeyIs(CreatedAt, t))
  {
    SortDescFacts(ns, CreatedAt);
    SortDescStable(ns, CreatedAt, t);
  }

  /** The store: the in-memory list and what local storage holds. */
  class NotificationStore {
    var notifications: seq<Notification>
    var storage: seq<Notification>

    /** The store after loading `loaded` from local storage. */
    constructor(loaded: seq<Notification>)
      ensures notifications == loaded && storage == loaded
    {
      notifications := loaded;
      storage := loaded;
    }

    /** `addNotification`: returns the built notification, duplicate or not,
        and adds (and saves) it only when it is not a duplicate. */
    method AddNotification(kind: string, title: Option<string>, message: Option<string>,
                           action: Option<ActionInput>, id: string, now: int)
      returns (r: Option<Notification>)
      modifies this
      ensures r == Build(kind, title, message, action, id, now)
      ensures r.None? ==> notifications == old(notifications) && storage == old(storage)
      ensures r.Some? && IsDuplicate(old(notifications), r.value.kind, r.value.title, now) ==>
        notifications == old(notifications) && storage == old(storage)
      ensures r.Some? && !IsDuplicate(old(notifications), r.value.kind, r.value.title, now) ==>
        notifications == [r.value] + old(notifications) && storage == Saved(notifications)
    {
      r := Build(kind, title, message, action, id, now);
      if r.Some? && !IsDuplicate(notifications, r.value.kind, r.value.title, now) {
        notifications := [r.value] + notifications;
        storage := Saved(notifications);
      }
    }

    /** `markAsRead`: the first notification with the id becomes read; the
        list is saved only when one was found. */
    method MarkAsRead(id: string)
      modifies this
      ensures notifications == MarkRead(old(notifications), id)
      ensures storage == if FirstIndex(old(notifications), HasId(id)).Some? then Saved(notifications) else old(storage)
    {
      var found := FirstIndex(notifications, HasId(id));
      if found.Some? {
        var k := found.value;
        notifications := notifications[k := MarkedRead(notifications[k])];
        storage := Saved(notifications);
      }
    }

    /** `markAllAsRead`: every notification becomes read, nothing else
        changes, and the list is saved. */
    method MarkAllAsRead()
      modifies this
      ensures |notifications| == |old(notifications)|
      ensures forall k :: 0 <= k < |notifications| ==> notifications[k] == old(notifications)[k].(read := true)
      ensures Unread(notifications) == 0
      ensures storage == Saved(notifications)
    {
      var i := 0;
      while i < |notifications|
        invariant 0 <= i <= |notifications| == |old(notifications)|
        invariant forall k :: 0 <= k < i ==> notifications[k] == old(notifications)[k].(read := true)
        invariant forall k :: i <= k < |notifications| ==> notifications[k] == old(notifications)[k]
      {
        notifications := notifications[i := MarkedRead(notifications[i])];
        i := i + 1;
      }
      assert i == |notifications|;
      AllReadNoUnread(notifications);
      storage := Saved(notifications);
    }

    /** `removeNotification`: the first notification with the id leaves the
        list, which is then saved; an unknown id changes nothing. */
    method RemoveNotification(id: string)
      modifies this
      ensures notifications == Remove(old(notifications), id)
      ensures storage == if FirstIndex(old(notifications), HasId(id)).Some? then Saved(notifications) else old(storage)
    {
      var found := FirstIndex(notifications, HasId(id));
      if found.Some? {
        var k := found.value;
        notifications := RemoveAt(notifications, k);
        storage := Saved(notifications);
      }
    }

    /** `clearAll`. */
    method ClearAll()
      modifies this
      ensures notifications == [] && storage == []
    {
      notifications := [];
      storage := Saved(notifications);
    }

    /** `unreadCount`. */
    function UnreadCount(): nat
      reads this
    {
      Unread(notifications)
    }
  }

  // ---------------------------------------------------------------------
  // formatRelativeTime

  /** The bucket `formatRelativeTime` puts an elapsed time in. */
  datatype Elapsed = JustNow | MinutesAgo(minutes: int) | HoursAgo(hours: int)
                   | Yesterday | DaysAgo(days: int) | OnDate

  /** The bucket for a notification created at `createdAt`, seen at `now`:
      whole minutes, hours and days are rounded down. */
  function Bucket(createdAt: int, now: int): Elapsed {
    var diffMs := now - createdAt;
    var diffMinutes := diffMs / MsPerMinute;
    var diffHours := diffMs / MsPerHour;
    var diffDays := diffMs / MsPerDay;
    if diffMinutes < 1 then JustNow
    else if diffMinutes < 60 then MinutesAgo(diffMinutes)
    else if diffHours < 24 then HoursAgo(diffHours)
    else if diffDays == 1 then Yesterday
    else if diffDays < 7 then DaysAgo(diffDays)
    else OnDate
  }

  /** `e / d` is `e` divided by `d` rounded down. */
  lemma FloorBounds(e: int, d: int)
    requires d > 0
    ensures (e / d) * d <= e < (e / d + 1) * d
  {
  }

  /** Each bucket covers the elapsed times its label names: under a minute
      (a time in the future included) is "just now", then whole minutes
      below an hour, whole hours below a day, the second day, whole days
      below a week, and a date from the seventh day on. */
  lemma BucketBounds(createdAt: int, now: int)
    ensures var r, e := Bucket(createdAt, now), now - createdAt;
      r == JustNow <==> e < MsPerMinute
    ensures var r, e := Bucket(createdAt, now), now - createdAt;
      r.MinutesAgo? ==>
        1 <= r.minutes < 60 && r.minutes * MsPerMinute <= e < (r.minutes + 1) * MsPerMinute
    ensures var r, e := Bucket(createdAt, now), now - createdAt;
      r.HoursAgo? ==>
        1 <= r.hours < 24 && r.hours * MsPerHour <= e < (r.hours + 1) * MsPerHour
    ensures var r, e := Bucket(createdAt, now), now - createdAt;
      r == Yesterday <==> MsPerDay <= e < 2 * MsPerDay
    ensures var r, e := Bucket(createdAt, now), now - createdAt;
      r.DaysAgo? ==>
        2 <= r.days < 7 && r.days * MsPerDay <= e < (r.days + 1) * MsPerDay
    ensures var r, e := Bucket(createdAt, now), now - createdAt;
      r == OnDate <==> e >= 7 * MsPerDay
  {
    var e := now - createdAt;
    FloorBounds(e, MsPerMinute);
    FloorBounds(e, MsPerHour);
    FloorBounds(e, MsPerDay);
  }

  /** `formatRelativeTime`; `localeDate` is what `toLocaleDateString` prints
      for the creation date. */
  function FormatRelativeTime(createdAt: int, now: int, localeDate: string): (r: string)
    ensures now - createdAt >= 7 * MsPerDay ==> r == localeDate
    ensures now - createdAt < MsPerMinute ==> r == "Agora mesmo"
    ensures MsPerDay <= now - createdAt < 2 * MsPerDay ==> r == "Ontem"
  {
    BucketBounds(createdAt, now);
    match Bucket(createdAt, now)
    case JustNow => "Agora mesmo"
    case MinutesAgo(m) => NatToString(m) + " min atrás"
    case HoursAgo(h) => NatToString(h) + "h atrás"
    case Yesterday => "Ontem"
    case DaysAgo(d) => NatToString(d) + " dias atrás"
    case OnDate => localeDate
  }
}
