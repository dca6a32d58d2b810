/** The notifications page: mark-as-read, the unread filter and the two counts. */
module NotificationsPage {
  import opened Seqs
  import opened Ui

  datatype Notification = Notification(id: string, title: string, message: string, kind: string, read: bool)

  /** The `map` that marks every entry with the given id as read. */
  function MarkRead(ns: seq<Notification>, id: string): (r: seq<Notification>)
    ensures |r| == |ns|
    ensures forall i | 0 <= i < |ns| ::
      (ns[i].id == id ==> r[i] == ns[i].(read := true)) && (ns[i].id != id ==> r[i] == ns[i])
  {
    if ns == [] then []
    else [if ns[0].id == id then ns[0].(read := true) else ns[0]] + MarkRead(ns[1..], id)
  }

  /** Marking the same id twice is marking it once. */
  lemma MarkReadIdempotent(ns: seq<Notification>, id: string)
    ensures MarkRead(MarkRead(ns, id), id) == MarkRead(ns, id)
  {
    var once := MarkRead(ns, id);
    var twice := MarkRead(once, id);
    assert forall i | 0 <= i < |ns| :: twice[i] == once[i];
  }

  predicate IsUnread(n: Notification) { !n.read }

  /** The unread entries, each as often as it occurs, in their original order. */
  function Unread(ns: seq<Notification>): (r: seq<Notification>)
    ensures forall n :: n in r <==> n in ns && !n.read
    ensures forall n :: multiset(r)[n] == if n.read then 0 else multiset(ns)[n]
    ensures IsSubsequence(r, ns)
  {
    FilterMembershipAll(ns, IsUnread);
    FilterMultiplicityAll(ns, IsUnread);
    FilterIsSubsequence(ns, IsUnread);
    Filter(ns, IsUnread)
  }

  /** Number of unread entries carrying the id. */
  function UnreadWithId(ns: seq<Notification>, id: string): nat {
    if ns == [] then 0
    else (if !ns[0].read && ns[0].id == id then 1 else 0) + UnreadWithId(ns[1..], id)
  }

  /** Marking as read lowers the "Unread" count by exactly the unread entries with that id. */
  lemma {:induction false} MarkReadUnreadCount(ns: seq<Notification>, id: string)
    ensures |Unread(MarkRead(ns, id))| == |Unread(ns)| - UnreadWithId(ns, id)
  {
    if ns != [] {
      var r := MarkRead(ns, id);
      assert r[1..] == MarkRead(ns[1..], id);
      MarkReadUnreadCount(ns[1..], id);
    }
  }

  /** `filteredNotifications`: only the unread ones for "unread", everything otherwise. */
  function FilteredNotifications(ns: seq<Notification>, filter: string): (r: seq<Notification>)
    ensures filter != "unread" ==> r == ns
    ensures filter == "unread" ==> (forall n :: n in r <==> n in ns && !n.read) && IsSubsequence(r, ns)
    ensures filter == "unread" ==> forall n :: multiset(r)[n] == if n.read then 0 else multiset(ns)[n]
  {
    if filter == "unread" then Unread(ns) else ns
  }

  /** The labels of the two filter buttons: "All (n)" and "Unread (m)". */
  function Counts(ns: seq<Notification>): (c: (nat, nat))
    ensures c.0 == |ns| && c.1 == |FilteredNotifications(ns, "unread")|
    ensures c.1 <= c.0
  {
    (|ns|, |Unread(ns)|)
  }

  class NotificationsPage {
    var notifications: seq<Notification>
    var filter: string
    var notices: seq<Notice>

    constructor ()
      ensures notifications == [] && filter == "all" && notices == []
    {
      notifications := [];
      filter := "all";
      notices := [];
    }

    /**
     * `markAsRead(id)`; `putSucceeded` is the outcome of the PUT, and the
     * list is only changed after it succeeds.
     */
    method MarkAsRead(id: string, putSucceeded: bool)
      modifies this
      ensures notifications == if putSucceeded then MarkRead(old(notifications), id) else old(notifications)
      ensures notices == if putSucceeded then old(notices) else old(notices) + [ErrorNotice("Failed to update notification")]
      ensures filter == old(filter)
    {
      if putSucceeded {
        notifications := MarkRead(notifications, id);
      } else {
        notices := notices + [ErrorNotice("Failed to update notification")];
      }
    }

    method SetFilter(f: string)
      modifies this
      ensures filter == f && notifications == old(notifications) && notices == old(notices)
    {
      filter := f;
    }
  }
}
