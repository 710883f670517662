/** The notification centre shared by the admin screens: the queue of toasts on the
    screen, the persisted notifications table, and the unread counter of the bell. */
module Notifications {
  import opened Values

  /** `NotificationType`. */
  datatype Kind = Success | Info | Warning | Error

  /** A toast on the screen. */
  datatype Toast = Toast(id: string, title: string, message: string, kind: Kind)

  /** A row of the notifications table. */
  datatype NotificationRow = NotificationRow(title: string, message: string, kind: Kind, isRead: bool)

  /** The default parameter `type = 'info'`: an absent type reads as `Info`. */
  function KindOr(kind: Option<Kind>): (k: Kind)
    ensures kind.None? ==> k == Info
    ensures kind.Some? ==> k == kind.value
  {
    match kind
    case None => Info
    case Some(k) => k
  }

  // ---------------------------------------------------------------------------
  // The toast queue

  predicate HasToast(q: seq<Toast>, id: string)
  {
    exists i :: 0 <= i < |q| && q[i].id == id
  }

  /** `prev.filter(t => t.id !== id)`: exactly the toasts with another id, in order. */
  function WithoutToast(q: seq<Toast>, id: string): (r: seq<Toast>)
    ensures forall t :: t in r <==> t in q && t.id != id
    ensures !HasToast(r, id)
    ensures |r| <= |q|
  {
    if q == [] then []
    else if q[|q| - 1].id == id then WithoutToast(q[..|q| - 1], id)
    else WithoutToast(q[..|q| - 1], id) + [q[|q| - 1]]
  }

  /** Removal works toast by toast, so it splits over any division of the queue:
      the relative order of the toasts kept is the queue's own. */
  lemma {:induction false} WithoutToastAppend(a: seq<Toast>, b: seq<Toast>, id: string)
    ensures WithoutToast(a + b, id) == WithoutToast(a, id) + WithoutToast(b, id)
  {
    if b == [] {
      assert a + b == a;
    } else {
      assert (a + b)[..|a + b| - 1] == a + b[..|b| - 1];
      WithoutToastAppend(a, b[..|b| - 1], id);
    }
  }

  /** A queue with no toast of that id is left as it is. */
  lemma {:induction false} WithoutAbsentToast(q: seq<Toast>, id: string)
    requires !HasToast(q, id)
    ensures WithoutToast(q, id) == q
  {
    if q != [] {
      var init := q[..|q| - 1];
      assert !HasToast(init, id) by {
        forall i | 0 <= i < |init| ensures init[i].id != id {
          assert init[i] == q[i];
        }
      }
      WithoutAbsentToast(q[..|q| - 1], id);
      assert q == q[..|q| - 1] + [q[|q| - 1]];
    }
  }

  /** A toast shown under a fresh id and then dismissed, or expired, leaves the queue
      as it was before. */
  lemma ShowThenDismiss(q: seq<Toast>, t: Toast)
    requires !HasToast(q, t.id)
    ensures WithoutToast(q + [t], t.id) == q
  {
    assert (q + [t])[..|q|] == q;
    WithoutAbsentToast(q, t.id);
  }

  // ---------------------------------------------------------------------------
  // The notifications table

  /** The store's count of rows with `is_read = false`. */
  function UnreadIn(rows: seq<NotificationRow>): (n: nat)
    ensures n <= |rows|
  {
    if rows == [] then 0
    else UnreadIn(rows[..|rows| - 1]) + (if rows[|rows| - 1].isRead then 0 else 1)
  }

  /** `update({ is_read: true }).eq('is_read', false)`: every row becomes read, nothing
      else about it changes. */
  function MarkAllRead(rows: seq<NotificationRow>): (r: seq<NotificationRow>)
    ensures |r| == |rows|
    ensures forall i :: 0 <= i < |rows| ==> r[i] == rows[i].(isRead := true)
  {
    seq(|rows|, i requires 0 <= i < |rows| => rows[i].(isRead := true))
  }

  /** After marking all read, the store counts no unread notification. */
  lemma {:induction false} NoUnreadAfterMarkAll(rows: seq<NotificationRow>)
    ensures UnreadIn(MarkAllRead(rows)) == 0
  {
    if rows != [] {
      var r := MarkAllRead(rows);
      assert r[..|r| - 1] == MarkAllRead(rows[..|rows| - 1]);
      NoUnreadAfterMarkAll(rows[..|rows| - 1]);
    }
  }

  /** A newly stored notification raises the unread count by one. */
  lemma NewRowIsUnread(rows: seq<NotificationRow>, row: NotificationRow)
    requires !row.isRead
    ensures UnreadIn(rows + [row]) == UnreadIn(rows) + 1
  {
    assert (rows + [row])[..|rows|] == rows;
  }

  /** The provider's state, with the notifications table it reads and writes. */
  class NotificationCenter {
    var toasts: seq<Toast>
    var unreadCount: int
    var rows: seq<NotificationRow>

    constructor (stored: seq<NotificationRow>)
      ensures toasts == [] && unreadCount == 0 && rows == stored
    {
      toasts := [];
      unreadCount := 0;
      rows := stored;
    }

    /** `fetchUnreadCount`: the store's count, or 0 when it gives none. */
    method FetchUnreadCount(fetchOk: bool)
      modifies this`unreadCount
      ensures unreadCount == if fetchOk then UnreadIn(rows) else 0
    {
      var count: Option<int> := if fetchOk then Some(UnreadIn(rows)) else None;
      unreadCount := IntOr(count, 0);
    }

    /** `triggerToast`: one toast at the end of the queue, under the fresh id the
        caller draws, the others untouched. */
    method TriggerToast(title: string, message: string, kind: Option<Kind>, freshId: string)
      modifies this`toasts
      ensures toasts == old(toasts) + [Toast(freshId, title, message, KindOr(kind))]
    {
      toasts := toasts + [Toast(freshId, title, message, KindOr(kind))];
    }

    /** `removeNotification`, which the five-second timer of each toast also runs with
        that toast's id. */
    method RemoveNotification(id: string)
      modifies this`toasts
      ensures toasts == WithoutToast(old(toasts), id)
      ensures !HasToast(old(toasts), id) ==> toasts == old(toasts)
    {
      if !HasToast(toasts, id) {
        WithoutAbsentToast(toasts, id);
      }
      toasts := WithoutToast(toasts, id);
    }

    /** `addNotification`: only the store gains the row, unread; the toast queue is
        left to the insert event. */
    method AddNotification(title: string, message: string, kind: Option<Kind>, insertOk: bool)
      modifies this`rows
      ensures insertOk ==> rows == old(rows) + [NotificationRow(title, message, KindOr(kind), false)]
      ensures insertOk ==> UnreadIn(rows) == UnreadIn(old(rows)) + 1
      ensures !insertOk ==> rows == old(rows)
    {
      if insertOk {
        NewRowIsUnread(rows, NotificationRow(title, message, KindOr(kind), false));
        rows := rows + [NotificationRow(title, message, KindOr(kind), false)];
      }
    }

    /** `markAllAsRead`: the counter is 0 whether or not the store's update succeeds. */
    method MarkAllAsRead(updateOk: bool)
      modifies this`rows, this`unreadCount
      ensures unreadCount == 0
      ensures updateOk ==> rows == MarkAllRead(old(rows)) && UnreadIn(rows) == 0
      ensures !updateOk ==> rows == old(rows)
    {
      if updateOk {
        NoUnreadAfterMarkAll(rows);
        rows := MarkAllRead(rows);
      }
      unreadCount := 0;
    }

    /** The realtime insert event: a toast built from the new row, then a fresh count. */
    method OnInsert(title: string, message: string, kind: Option<Kind>, freshId: string, fetchOk: bool)
      modifies this`toasts, this`unreadCount
      ensures toasts == old(toasts) + [Toast(freshId, title, message, KindOr(kind))]
      ensures unreadCount == if fetchOk then UnreadIn(rows) else 0
    {
      TriggerToast(title, message, kind, freshId);
      FetchUnreadCount(fetchOk);
    }
  }
}
