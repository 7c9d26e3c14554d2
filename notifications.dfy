/** The notifications page: the unread count in the heading and the
    highlighted background of unread items. */
module Notifications {
  import Lists

  datatype Kind = AppointmentNotice | MessageNotice | ReportNotice | SystemNotice

  datatype Notification = Notification(id: string, kind: Kind, isRead: bool)

  function IsUnread(): Notification -> bool {
    (n: Notification) => !n.isRead
  }

  /** The number of unread notifications, counted one by one: the
      reference for the count shown. */
  function CountUnread(ns: seq<Notification>): nat {
    if ns == [] then 0 else (if ns[0].isRead then 0 else 1) + CountUnread(ns[1..])
  }

  /** `notifications.filter(n => !n.isRead).length` */
  function UnreadCount(ns: seq<Notification>): (r: nat)
    ensures r == CountUnread(ns)
    ensures r <= |ns|
  {
    UnreadFilterCounts(ns);
    |Lists.Filter(ns, IsUnread())|
  }

  lemma {:induction false} UnreadFilterCounts(ns: seq<Notification>)
    ensures |Lists.Filter(ns, IsUnread())| == CountUnread(ns)
  {
    if ns != [] {
      Lists.FilterUncons(ns, IsUnread());
      UnreadFilterCounts(ns[1..]);
    }
  }

  datatype Shade = Plain | Highlighted

  /** An item's background. */
  function Background(n: Notification): (r: Shade)
    ensures r == Highlighted <==> !n.isRead
  {
    if n.isRead then Plain else Highlighted
  }

  /** As many items are highlighted as the heading counts unread. */
  lemma HighlightedMatchesCount(ns: seq<Notification>)
    ensures |Lists.Filter(ns, (n: Notification) => Background(n) == Highlighted)| == UnreadCount(ns)
  {
    Lists.FilterExtensional(ns, (n: Notification) => Background(n) == Highlighted, IsUnread());
  }

  /** The four notifications the page lists (only the fields used here). */
  const Shipped: seq<Notification> := [
    Notification("1", AppointmentNotice, false),
    Notification("2", MessageNotice, false),
    Notification("3", ReportNotice, true),
    Notification("4", SystemNotice, true)
  ]

  /** The heading reads "You have 2 unread notifications". */
  lemma ShippedUnread()
    ensures UnreadCount(Shipped) == 2
  {
    assert Shipped[3..][1..] == [];
    assert CountUnread(Shipped[3..]) == 0;
    assert Shipped[2..][1..] == Shipped[3..];
    assert CountUnread(Shipped[2..]) == 0;
    assert Shipped[1..][1..] == Shipped[2..];
    assert CountUnread(Shipped[1..]) == 1;
  }
}
