/** The notification list shared by every page (NotificationContext.tsx): local entries are
    put at the head, read flags change locally, entries are cleared one by one or all at
    once through the backend, and a refresh replaces the whole list with the backend's. */
module Notifications {
  import opened Wrappers
  import opened Text
  import opened Seqs
  import opened JsObjects
  import opened Http
  import Storage

  datatype Notification = Notification(
    id: string,
    title: string,
    message: string,
    kind: string,
    read: bool,
    timestamp: string,
    appointmentId: Option<string>)

  /** What a page passes to `addNotification`: everything except id, read flag and time. */
  datatype Draft = Draft(title: string, message: string, kind: string, appointmentId: Option<string>)

  /** One record of `GET /appointments/notifications`. */
  datatype BackendNotification = BackendNotification(
    id: string,
    message: string,
    kind: string,
    read: bool,
    createdAt: string,
    appointmentId: Option<string>)

  /** The response body `{ notifications }`; the field may be missing. */
  datatype NotificationsPayload = NotificationsPayload(notifications: Option<seq<BackendNotification>>)

  // ---------------------------------------------------------------------------------------
  // The list transforms behind each operation.

  function Ids(list: seq<Notification>): (ids: seq<string>)
    ensures |ids| == |list|
    ensures forall i :: 0 <= i < |list| ==> ids[i] == list[i].id
  {
    if list == [] then [] else [list[0].id] + Ids(list[1..])
  }

  /** `[newNotification, ...prev]`: the new entry, unread, ahead of the unchanged list. */
  function Added(list: seq<Notification>, d: Draft, id: string, now: string): (r: seq<Notification>)
    ensures |r| == |list| + 1 && r[1..] == list
    ensures !r[0].read && r[0].id == id && r[0].timestamp == now
    ensures r[0].title == d.title && r[0].message == d.message && r[0].kind == d.kind
    ensures r[0].appointmentId == d.appointmentId
  {
    [Notification(id, d.title, d.message, d.kind, false, now, d.appointmentId)] + list
  }

  /** `prev.map(n => n.id === id ? { ...n, read: true } : n)`: only the read flag moves,
      and it is set exactly on the entries carrying `id`. */
  function MarkedRead(list: seq<Notification>, id: string): (r: seq<Notification>)
    ensures |r| == |list|
    ensures forall i :: 0 <= i < |list| ==> r[i] == list[i].(read := r[i].read)
    ensures forall i :: 0 <= i < |list| ==> (r[i].read <==> list[i].read || list[i].id == id)
  {
    if list == [] then []
    else [if list[0].id == id then list[0].(read := true) else list[0]] + MarkedRead(list[1..], id)
  }

  /** `prev.map(n => ({ ...n, read: true }))`. */
  function AllRead(list: seq<Notification>): (r: seq<Notification>)
    ensures |r| == |list|
    ensures forall i :: 0 <= i < |list| ==> r[i] == list[i].(read := true)
  {
    if list == [] then [] else [list[0].(read := true)] + AllRead(list[1..])
  }

  function OtherId(id: string): Notification -> bool
  {
    (n: Notification) => n.id != id
  }

  /** `prev.filter(n => n.id !== id)`. */
  function WithoutId(list: seq<Notification>, id: string): (r: seq<Notification>)
    ensures forall n :: n in r <==> n in list && n.id != id
    ensures IsSubsequence(r, list)
  {
    Filter(list, OtherId(id))
  }

  function IsUnread(n: Notification): bool
  {
    !n.read
  }

  /** `notifications.filter(n => !n.read).length`, counted entry by entry. */
  function CountUnread(list: seq<Notification>): (n: nat)
    ensures n <= |list|
    ensures n == 0 <==> forall i :: 0 <= i < |list| ==> list[i].read
  {
    if list == [] then 0 else (if list[0].read then 0 else 1) + CountUnread(list[1..])
  }

  /** The title a backend record gets from its type. */
  function TitleFor(kind: string): (t: string)
    ensures t == "Appointment Confirmed" <==> kind == "success"
    ensures t == "Appointment Cancelled" <==> kind == "warning"
    ensures t == "Appointment Confirmed" || t == "Appointment Cancelled" || t == "New Appointment"
  {
    assert "Appointment Confirmed"[13] != "Appointment Cancelled"[13];
    assert "New Appointment"[0] != "Appointment Confirmed"[0];
    if kind == "success" then "Appointment Confirmed"
    else if kind == "warning" then "Appointment Cancelled"
    else "New Appointment"
  }

  /** The frontend shape of one backend record. */
  function FromBackend(b: BackendNotification): (n: Notification)
    ensures n.id == b.id && n.appointmentId == b.appointmentId && n.read == b.read
    ensures n.message == b.message && n.kind == b.kind && n.timestamp == b.createdAt
    ensures n.title == TitleFor(b.kind)
  {
    Notification(b.id, TitleFor(b.kind), b.message, b.kind, b.read, b.createdAt, b.appointmentId)
  }

  /** `backendNotifications.map(...)`: the backend list, record by record, in its order. */
  function Mapped(bs: seq<BackendNotification>): (r: seq<Notification>)
    ensures |r| == |bs|
    ensures forall i :: 0 <= i < |bs| ==> r[i] == FromBackend(bs[i])
  {
    if bs == [] then [] else [FromBackend(bs[0])] + Mapped(bs[1..])
  }

  /** The index of the first clear request that rejects, or `n` when none of the `n` does. */
  function FirstThrow(from: nat, n: nat, throwsAt: nat -> bool): (k: nat)
    requires from <= n
    ensures from <= k <= n
    ensures forall j :: from <= j < k ==> !throwsAt(j)
    ensures k < n ==> throwsAt(k)
    decreases n - from
  {
    if from == n || throwsAt(from) then from else FirstThrow(from + 1, n, throwsAt)
  }

  /** The first failure is the one index before which nothing failed. */
  lemma FirstThrowIs(n: nat, throwsAt: nat -> bool, i: nat)
    requires i <= n
    requires forall j :: 0 <= j < i ==> !throwsAt(j)
    requires i < n ==> throwsAt(i)
    ensures FirstThrow(0, n, throwsAt) == i
  {
  }

  // ---------------------------------------------------------------------------------------
  // What each operation does to the list, stated against the functions above.

  /** A new entry is unread, so the unread count goes up by exactly one. */
  lemma AddedUnread(list: seq<Notification>, d: Draft, id: string, now: string)
    ensures CountUnread(Added(list, d, id, now)) == CountUnread(list) + 1
  {
    var r := Added(list, d, id, now);
    assert r[1..] == list;
  }

  /** Marking an id that no entry carries changes nothing. */
  lemma {:induction false} MarkedReadAbsent(list: seq<Notification>, id: string)
    requires forall i :: 0 <= i < |list| ==> list[i].id != id
    ensures MarkedRead(list, id) == list
  {
    if list != [] {
      MarkedReadAbsent(list[1..], id);
    }
  }

  /** Marking an entry read twice is marking it once. */
  lemma MarkedReadIdempotent(list: seq<Notification>, id: string)
    ensures MarkedRead(MarkedRead(list, id), id) == MarkedRead(list, id)
  {
    var once := MarkedRead(list, id);
    var twice := MarkedRead(once, id);
    assert forall i :: 0 <= i < |list| ==> twice[i] == once[i];
  }

  /** Marking one id read never raises the unread count; it leaves no entry with that id unread. */
  lemma {:induction false} MarkedReadUnread(list: seq<Notification>, id: string)
    ensures CountUnread(MarkedRead(list, id)) <= CountUnread(list)
    ensures forall i :: 0 <= i < |list| && list[i].id == id ==> MarkedRead(list, id)[i].read
  {
    if list != [] {
      MarkedReadUnread(list[1..], id);
      assert MarkedRead(list, id)[1..] == MarkedRead(list[1..], id);
    }
  }

  /** After marking all read the unread count is zero. */
  lemma AllReadNoUnread(list: seq<Notification>)
    ensures CountUnread(AllRead(list)) == 0
  {
  }

  /** Clearing an id that is already gone is a no-op. */
  lemma WithoutIdIdempotent(list: seq<Notification>, id: string)
    ensures WithoutId(WithoutId(list, id), id) == WithoutId(list, id)
  {
    var once := WithoutId(list, id);
    FilterKeepsAll(once, OtherId(id));
  }

  /** Clearing an id no entry carries leaves the list as it was. */
  lemma WithoutAbsentId(list: seq<Notification>, id: string)
    requires forall n :: n in list ==> n.id != id
    ensures WithoutId(list, id) == list
  {
    FilterKeepsAll(list, OtherId(id));
  }

  /** The unread count is the length of the unread filter, as the provider computes it. */
  lemma {:induction false} CountUnreadIsFilterLength(list: seq<Notification>)
    ensures CountUnread(list) == |Filter(list, IsUnread)|
  {
    if list != [] {
      CountUnreadIsFilterLength(list[1..]);
    }
  }

  /** A refresh keeps the backend's ids, appointment ids, messages, types and read flags in
      the backend's order, and titles every record from its type. */
  lemma MappedFaithful(bs: seq<BackendNotification>, i: nat)
    requires i < |bs|
    ensures |Mapped(bs)| == |bs|
    ensures Mapped(bs)[i].id == bs[i].id && Mapped(bs)[i].appointmentId == bs[i].appointmentId
    ensures Mapped(bs)[i].read == bs[i].read && Mapped(bs)[i].message == bs[i].message
    ensures Mapped(bs)[i].kind == bs[i].kind && Mapped(bs)[i].timestamp == bs[i].createdAt
    ensures bs[i].kind == "success" ==> Mapped(bs)[i].title == "Appointment Confirmed"
    ensures bs[i].kind == "warning" ==> Mapped(bs)[i].title == "Appointment Cancelled"
    ensures bs[i].kind != "success" && bs[i].kind != "warning" ==> Mapped(bs)[i].title == "New Appointment"
  {
  }

  /** The refreshed list has exactly as many unread entries as the backend reports. */
  lemma {:induction false} MappedUnread(bs: seq<BackendNotification>)
    ensures CountUnread(Mapped(bs)) == |Filter(bs, (b: BackendNotification) => !b.read)|
  {
    if bs != [] {
      MappedUnread(bs[1..]);
      assert Mapped(bs)[1..] == Mapped(bs[1..]);
    }
  }

  // ---------------------------------------------------------------------------------------

  /** The provider's `notifications` state and the operations that update it. */
  class NotificationStore {
    var notifications: seq<Notification>

    constructor ()
      ensures notifications == []
    {
      notifications := [];
    }

    /** `unreadCount`. */
    function UnreadCount(): (n: nat)
      reads this
      ensures n <= |notifications|
    {
      CountUnread(notifications)
    }

    /** `addNotification`; the clock supplies `id` (`Date.now()`) and `now`. */
    method AddNotification(d: Draft, id: string, now: string)
      modifies this
      ensures notifications == Added(old(notifications), d, id, now)
    {
      notifications := [Notification(id, d.title, d.message, d.kind, false, now, d.appointmentId)] + notifications;
    }

    /** `markAsRead(id)`. */
    method MarkAsRead(id: string)
      modifies this
      ensures notifications == MarkedRead(old(notifications), id)
    {
      notifications := MarkedRead(notifications, id);
    }

    /** `markAllAsRead()`. */
    method MarkAllAsRead()
      modifies this
      ensures notifications == AllRead(old(notifications))
      ensures UnreadCount() == 0
    {
      notifications := AllRead(notifications);
      AllReadNoUnread(old(notifications));
    }

    /** `clearNotification(id)`: without a token nothing is sent; the entry goes only when
        the backend answers with a 2xx status. Returns whether the request was sent. */
    method ClearNotification(storage: Storage.LocalStorage, id: string, reply: Reply<JsObject>)
      returns (sent: bool)
      modifies this
      ensures sent <==> Truthy(storage.GetItem("auth_token"))
      ensures notifications == if sent && reply.Ok? then WithoutId(old(notifications), id)
                               else old(notifications)
    {
      var token := storage.GetItem("auth_token");
      if !Truthy(token) {
        return false;
      }
      sent := true;
      if reply.Ok? {
        notifications := WithoutId(notifications, id);
      }
    }

    /** `clearNotifications()`: without a token nothing is sent. Otherwise one clear request
        per entry, in list order, whatever each status; request `i` rejects when
        `throwsAt(i)`, and a rejection ends the loop with the list unchanged. When every
        request settles the list is emptied. Returns the ids of the requests sent. */
    method ClearNotifications(storage: Storage.LocalStorage, throwsAt: nat -> bool)
      returns (sent: seq<string>)
      modifies this
      ensures !Truthy(storage.GetItem("auth_token")) ==>
        sent == [] && notifications == old(notifications)
      ensures Truthy(storage.GetItem("auth_token")) ==>
        var n := |old(notifications)|;
        var k := FirstThrow(0, n, throwsAt);
        sent == Ids(old(notifications))[..if k < n then k + 1 else n] &&
        notifications == if k < n then old(notifications) else []
    {
      sent := [];
      var token := storage.GetItem("auth_token");
      if !Truthy(token) {
        return;
      }
      var list := notifications;
      var i := 0;
      while i < |list|
        invariant 0 <= i <= |list|
        invariant sent == Ids(list)[..i]
        invariant forall j :: 0 <= j < i ==> !throwsAt(j)
        invariant notifications == list
      {
        assert Ids(list)[..i + 1] == Ids(list)[..i] + [list[i].id];
        sent := sent + [list[i].id];
        if throwsAt(i) {
          FirstThrowIs(|list|, throwsAt, i);
          return;
        }
        i := i + 1;
      }
      FirstThrowIs(|list|, throwsAt, i);
      assert Ids(list)[..i] == Ids(list);
      notifications := [];
    }

    /** `fetchAppointmentNotifications()`: without a token, on a non-2xx status or a rejected
        request the list stays; otherwise it becomes the backend's list (an absent field
        reads as the empty list). Returns whether the request was sent. */
    method FetchAppointmentNotifications(storage: Storage.LocalStorage, reply: Reply<NotificationsPayload>)
      returns (sent: bool)
      modifies this
      ensures sent <==> Truthy(storage.GetItem("auth_token"))
      ensures notifications == if sent && reply.Ok? then Mapped(reply.body.notifications.GetOr([]))
                               else old(notifications)
    {
      var token := storage.GetItem("auth_token");
      if !Truthy(token) {
        return false;
      }
      sent := true;
      match reply {
        case Ok(payload) =>
          notifications := Mapped(payload.notifications.GetOr([]));
        case NotOk(_) =>
        case Thrown(_) =>
      }
    }
  }
}
