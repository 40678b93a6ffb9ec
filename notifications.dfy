/**
 * The notifications page: a list with read flags, a tab choosing all or only
 * unread ones, and the two "mark as read" actions over the `notifications`
 * state cell.
 */
module Notifications {
  import Lists

  datatype Notification = Notification(id: int, message: string, kind: string, time: string, read: bool)

  /** `mockNotifications`. */
  const Mock: seq<Notification> := [
    Notification(1, "Nouvelle dette enregistrée pour Kokou Amouzou", "info", "2 heures", false),
    Notification(2, "Alerte: Échéance de paiement dépassée pour Afi Mensah", "warning", "1 jour", false),
    Notification(3, "Dette entièrement remboursée par Kodjo Abalo", "success", "3 jours", true),
    Notification(4, "Nouvelle zone Abomey-Calavi assignée à Sophie Agbodjan", "info", "5 jours", true),
    Notification(5, "Alerte: Multiple défauts de paiement pour Ayélévi Adoko", "warning", "1 semaine", true)
  ]

  predicate Unread(n: Notification) {
    !n.read
  }

  /** `filteredNotifications`: only the unread ones on the 'unread' tab, all of them on any other tab. */
  function Visible(ns: seq<Notification>, tab: string): (r: seq<Notification>)
    ensures tab != "unread" ==> r == ns
    ensures tab == "unread" ==> (forall n :: n in r <==> n in ns && !n.read) && Lists.Subsequence(r, ns)
  {
    if tab == "all" then ns
    else if tab == "unread" then
      Lists.FilterIsSubsequence(ns, Unread);
      forall n ensures n in Lists.Filter(ns, Unread) <==> n in ns && !n.read {
        Lists.FilterMembership(ns, Unread, n);
      }
      Lists.Filter(ns, Unread)
    else ns
  }

  /** The badge on the 'unread' tab. */
  function UnreadCount(ns: seq<Notification>): (k: nat)
    ensures k <= |ns|
    ensures k == |Visible(ns, "unread")|
  {
    Lists.Count(ns, Unread)
  }

  predicate HasId(n: Notification, id: int) {
    n.id == id
  }

  function SetRead(n: Notification): Notification {
    n.(read := true)
  }

  /** `markAsRead(id)`: the notifications with the id become read; length, order and the rest are kept. */
  function MarkRead(ns: seq<Notification>, id: int): (r: seq<Notification>)
    ensures |r| == |ns|
    ensures forall i :: 0 <= i < |ns| ==> r[i] == if ns[i].id == id then ns[i].(read := true) else ns[i]
  {
    var hit := (n: Notification) => HasId(n, id);
    forall i | 0 <= i < |ns|
      ensures Lists.MapWhere(ns, hit, SetRead)[i] == if ns[i].id == id then ns[i].(read := true) else ns[i]
    {
      Lists.MapWhereAt(ns, hit, SetRead, i);
    }
    Lists.MapWhere(ns, hit, SetRead)
  }

  predicate Always(n: Notification) {
    true
  }

  /** `markAllAsRead`: every notification becomes read, nothing else changes. */
  function MarkAllRead(ns: seq<Notification>): (r: seq<Notification>)
    ensures |r| == |ns|
    ensures forall i :: 0 <= i < |ns| ==> r[i] == ns[i].(read := true)
  {
    forall i | 0 <= i < |ns| ensures Lists.MapWhere(ns, Always, SetRead)[i] == ns[i].(read := true) {
      Lists.MapWhereAt(ns, Always, SetRead, i);
    }
    Lists.MapWhere(ns, Always, SetRead)
  }

  lemma MarkReadIsIdempotent(ns: seq<Notification>, id: int)
    ensures MarkRead(MarkRead(ns, id), id) == MarkRead(ns, id)
  {
    Lists.MapWhereIdempotent(ns, (n: Notification) => HasId(n, id), SetRead);
  }

  lemma MarkAllReadIsIdempotent(ns: seq<Notification>)
    ensures MarkAllRead(MarkAllRead(ns)) == MarkAllRead(ns)
  {
    Lists.MapWhereIdempotent(ns, Always, SetRead);
  }

  /** After "mark all as read" the badge shows 0 and the 'unread' tab is empty. */
  lemma {:induction false} NoneUnreadAfterMarkAll(ns: seq<Notification>)
    ensures UnreadCount(MarkAllRead(ns)) == 0
    ensures Visible(MarkAllRead(ns), "unread") == []
  {
    var r := MarkAllRead(ns);
    Lists.CountNoneIsZero(r, Unread);
  }

  /** Marking one notification read lowers the badge by one exactly when it was unread and its id is unique. */
  lemma {:induction false} MarkReadLowersCount(ns: seq<Notification>, k: nat)
    requires k < |ns|
    requires forall j :: 0 <= j < |ns| && j != k ==> ns[j].id != ns[k].id
    ensures UnreadCount(MarkRead(ns, ns[k].id)) == UnreadCount(ns) - (if ns[k].read then 0 else 1)
  {
    var id := ns[k].id;
    if k == 0 {
      assert MarkRead(ns, id)[1..] == MarkRead(ns[1..], id);
      Lists.MapWhereMissIsIdentity(ns[1..], (n: Notification) => HasId(n, id), SetRead);
      assert MarkRead(ns[1..], id) == ns[1..];
    } else {
      assert MarkRead(ns, id)[1..] == MarkRead(ns[1..], id);
      MarkReadLowersCount(ns[1..], k - 1);
    }
  }

  /** The sample list opens with two unread notifications. */
  lemma MockHasTwoUnread()
    ensures UnreadCount(Mock) == 2
  {
    assert Lists.Filter(Mock, Unread) == [Mock[0], Mock[1]];
  }

  class NotificationsPage {
    var notifications: seq<Notification>
    var activeTab: string

    constructor ()
      ensures notifications == Mock && activeTab == "all"
    {
      notifications := Mock;
      activeTab := "all";
    }

    method SelectTab(tab: string)
      modifies this
      ensures activeTab == tab && notifications == old(notifications)
    {
      activeTab := tab;
    }

    method MarkAsRead(id: int)
      modifies this
      ensures notifications == MarkRead(old(notifications), id) && activeTab == old(activeTab)
    {
      notifications := Lists.MapWhere(notifications, (n: Notification) => HasId(n, id), SetRead);
    }

    method MarkAllAsRead()
      modifies this
      ensures notifications == MarkAllRead(old(notifications)) && activeTab == old(activeTab)
      ensures UnreadCount(notifications) == 0
    {
      notifications := Lists.MapWhere(notifications, Always, SetRead);
      NoneUnreadAfterMarkAll(old(notifications));
    }
  }
}
