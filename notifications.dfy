// The frontend's notifications: the hook that keeps a list and an unread
// counter, the panel that shows them, and the two badge components.

/** Frontend/src/hooks/useNotifications.js. */
module NotificationStore {
  import opened Common
  import ApiClient

  /** A notification as the backend serialises it; `kind` is its `type`. */
  datatype Notification = Notification(id: nat, title: string, message: string, kind: string,
                                       read: bool, createdAt: string)

  /** `notifications.filter(n => !n.read)`. */
  function Unread(ns: seq<Notification>): (r: seq<Notification>)
    ensures |r| <= |ns|
    ensures forall n :: n in r ==> n in ns && !n.read
  {
    if ns == [] then []
    else if !ns[0].read then [ns[0]] + Unread(ns[1..])
    else Unread(ns[1..])
  }

  /** Every unread entry is kept. */
  lemma {:induction false} UnreadKeepsUnread(ns: seq<Notification>, n: Notification)
    requires n in ns && !n.read
    ensures n in Unread(ns)
  {
    if ns[0] != n {
      UnreadKeepsUnread(ns[1..], n);
    }
  }

  /** Each unread entry is kept as often as it occurs, and no read entry is:
      so the length of the list is the number of unread entries. */
  lemma {:induction false} UnreadCounts(ns: seq<Notification>)
    ensures forall n :: multiset(Unread(ns))[n] == if n.read then 0 else multiset(ns)[n]
  {
    if ns != [] {
      UnreadCounts(ns[1..]);
      assert ns == [ns[0]] + ns[1..];
      assert multiset(ns) == multiset([ns[0]]) + multiset(ns[1..]);
    }
  }

  /** The unread entries come in the order of the list. */
  lemma {:induction false} UnreadIsSubsequence(ns: seq<Notification>)
    ensures IsSubsequence(Unread(ns), ns)
  {
    if ns != [] {
      UnreadIsSubsequence(ns[1..]);
      var rest := Unread(ns[1..]);
      if !ns[0].read {
        assert Unread(ns) == [ns[0]] + rest;
        assert ([ns[0]] + rest)[1..] == rest;
      }
    }
  }

  /** `prev.map(n => n.id === id ? {...n, read: true} : n)`. */
  function MarkedRead(ns: seq<Notification>, id: nat): (r: seq<Notification>)
    ensures |r| == |ns|
    ensures forall i :: 0 <= i < |ns| ==> r[i] == (if ns[i].id == id then ns[i].(read := true) else ns[i])
  {
    if ns == [] then [] else [if ns[0].id == id then ns[0].(read := true) else ns[0]] + MarkedRead(ns[1..], id)
  }

  /** `prev.map(n => ({...n, read: true}))`. */
  function AllRead(ns: seq<Notification>): (r: seq<Notification>)
    ensures |r| == |ns|
    ensures forall i :: 0 <= i < |ns| ==> r[i] == ns[i].(read := true)
  {
    if ns == [] then [] else [ns[0].(read := true)] + AllRead(ns[1..])
  }

  /** `Math.max(0, prev - 1)`. */
  function Decremented(count: int): (c: int)
    ensures c >= 0
    ensures count >= 1 ==> c == count - 1
    ensures count <= 0 ==> c == 0
  {
    if count - 1 > 0 then count - 1 else 0
  }

  predicate UniqueIds(ns: seq<Notification>) {
    forall i, j :: 0 <= i < |ns| && 0 <= j < |ns| && ns[i].id == ns[j].id ==> i == j
  }

  /** Nothing is unread once every entry is marked read. */
  lemma {:induction false} NoneUnreadAfterAllRead(ns: seq<Notification>)
    ensures Unread(AllRead(ns)) == []
  {
    if ns != [] {
      NoneUnreadAfterAllRead(ns[1..]);
      assert AllRead(ns)[1..] == AllRead(ns[1..]);
    }
  }

  /** Marking read an id that no unread entry has changes no entry. */
  lemma {:induction false} MarkReadOfReadIsNoChange(ns: seq<Notification>, id: nat)
    requires forall i :: 0 <= i < |ns| && ns[i].id == id ==> ns[i].read
    ensures MarkedRead(ns, id) == ns
  {
    if ns != [] {
      MarkReadOfReadIsNoChange(ns[1..], id);
      assert MarkedRead(ns, id)[1..] == MarkedRead(ns[1..], id);
    }
  }

  /** With unique ids, marking the one unread entry with this id read
      removes exactly one entry from the unread list. */
  lemma {:induction false} MarkReadOfUnreadDropsOne(ns: seq<Notification>, id: nat, k: nat)
    requires UniqueIds(ns)
    requires k < |ns| && ns[k].id == id && !ns[k].read
    ensures |Unread(MarkedRead(ns, id))| == |Unread(ns)| - 1
  {
    assert MarkedRead(ns, id)[1..] == MarkedRead(ns[1..], id);
    if k == 0 {
      assert forall i :: 0 <= i < |ns[1..]| ==> ns[1..][i].id != id by {
        forall i | 0 <= i < |ns[1..]|
          ensures ns[1..][i].id != id
        {
          assert ns[i + 1].id == ns[0].id ==> i + 1 == 0;
        }
      }
      MarkReadOfReadIsNoChange(ns[1..], id);
    } else {
      assert UniqueIds(ns[1..]) by {
        forall i, j | 0 <= i < |ns[1..]| && 0 <= j < |ns[1..]| && ns[1..][i].id == ns[1..][j].id
          ensures i == j
        {
          assert ns[i + 1].id == ns[j + 1].id;
        }
      }
      assert ns[0].id != id by {
        assert ns[0].id == ns[k].id ==> 0 == k;
      }
      MarkReadOfUnreadDropsOne(ns[1..], id, k - 1);
    }
  }

  /** The hook's counter stays equal to the number of unread entries when an
      unread entry is marked read, provided ids are unique. */
  lemma CountStaysExact(ns: seq<Notification>, count: int, id: nat, k: nat)
    requires UniqueIds(ns) && count == |Unread(ns)|
    requires k < |ns| && ns[k].id == id && !ns[k].read
    ensures Decremented(count) == |Unread(MarkedRead(ns, id))|
  {
    MarkReadOfUnreadDropsOne(ns, id, k);
  }

  /** ... but marking an entry that is already read still lowers a positive
      counter, while the list stays as it was: the counter then drifts below
      the number of unread entries. */
  lemma CountDriftsOnReadTarget(ns: seq<Notification>, count: int, id: nat)
    requires count == |Unread(ns)| && count > 0
    requires forall i :: 0 <= i < |ns| && ns[i].id == id ==> ns[i].read
    ensures MarkedRead(ns, id) == ns
    ensures Decremented(count) == |Unread(MarkedRead(ns, id))| - 1
  {
    MarkReadOfReadIsNoChange(ns, id);
  }

  class NotificationsHook {
    var notifications: seq<Notification>
    var unreadCount: int
    var isLoading: bool

    /** The counter matches the list. */
    predicate Consistent()
      reads this
    {
      unreadCount == |Unread(notifications)|
    }

    constructor ()
      ensures notifications == [] && unreadCount == 0 && !isLoading && Consistent()
    {
      notifications := [];
      unreadCount := 0;
      isLoading := false;
    }

    /** `fetchNotifications` up to its `await`: with no signed-in user it
        returns at once and nothing changes. */
    method BeginFetch(hasUser: bool) returns (endpoint: Option<string>)
      modifies this
      ensures endpoint.Some? <==> hasUser
      ensures hasUser ==> endpoint.value == ApiClient.NotificationsPath && isLoading
      ensures !hasUser ==> isLoading == old(isLoading)
      ensures notifications == old(notifications) && unreadCount == old(unreadCount)
    {
      if !hasUser {
        return None;
      }
      isLoading := true;
      endpoint := Some(ApiClient.NotificationsPath);
    }

    /** After the fetch settles (`None` when it throws): the list and a
        counter matching it, or no change. */
    method FinishFetch(response: Option<seq<Notification>>)
      modifies this
      ensures !isLoading
      ensures response.Some? ==> notifications == response.value && Consistent()
      ensures response.None? ==> notifications == old(notifications) && unreadCount == old(unreadCount)
    {
      if response.Some? {
        notifications := response.value;
        unreadCount := |Unread(response.value)|;
      }
      isLoading := false;
    }

    /** `markAsRead(id)`: the patch it sends, then on success the matching
        entries are read and the counter drops by one, floored at 0. A
        failed patch changes nothing. */
    method MarkAsRead(id: nat, succeeded: bool) returns (endpoint: string)
      modifies this
      ensures endpoint == ApiClient.MarkNotificationReadPath(id) && isLoading == old(isLoading)
      ensures succeeded ==> notifications == MarkedRead(old(notifications), id)
                            && unreadCount == Decremented(old(unreadCount))
      ensures !succeeded ==> notifications == old(notifications) && unreadCount == old(unreadCount)
      ensures old(unreadCount) >= 0 ==> unreadCount >= 0
    {
      endpoint := ApiClient.MarkNotificationReadPath(id);
      if succeeded {
        notifications := MarkedRead(notifications, id);
        unreadCount := Decremented(unreadCount);
      }
    }

    /** `markAllAsRead`: one patch per entry unread at the time of the call,
        then on success every entry is read and the counter is 0. A failed
        patch changes nothing. */
    method MarkAllAsRead(succeeded: bool) returns (patched: seq<string>)
      modifies this
      ensures |patched| == |Unread(old(notifications))|
      ensures forall i :: 0 <= i < |patched| ==>
                patched[i] == ApiClient.MarkNotificationReadPath(Unread(old(notifications))[i].id)
      ensures succeeded ==> notifications == AllRead(old(notifications)) && unreadCount == 0 && Consistent()
      ensures !succeeded ==> notifications == old(notifications) && unreadCount == old(unreadCount)
      ensures isLoading == old(isLoading)
    {
      var unread := Unread(notifications);
      patched := [];
      var i := 0;
      while i < |unread|
        invariant 0 <= i <= |unread|
        invariant |patched| == i
        invariant forall j :: 0 <= j < i ==> patched[j] == ApiClient.MarkNotificationReadPath(unread[j].id)
      {
        patched := patched + [ApiClient.MarkNotificationReadPath(unread[i].id)];
        i := i + 1;
      }
      if succeeded {
        NoneUnreadAfterAllRead(notifications);
        notifications := AllRead(notifications);
        unreadCount := 0;
      }
    }
  }
}

/** Frontend/src/components/notifications/NotificationPanel.jsx. */
module NotificationPanel {
  import opened Common
  import opened NotificationStore

  datatype Glyph = CheckCircle | AlertTriangle | XCircle | Info

  /** An icon with its colour token (`text-<tint>`). */
  datatype Icon = Icon(glyph: Glyph, tint: string)

  /** `getNotificationIcon`: total over the type, "info" for any other. */
  function IconFor(kind: string): (i: Icon)
    ensures kind == "success" ==> i == Icon(CheckCircle, "success")
    ensures kind == "warning" ==> i == Icon(AlertTriangle, "warning")
    ensures kind == "error" ==> i == Icon(XCircle, "destructive")
    ensures kind !in {"success", "warning", "error"} ==> i == Icon(Info, "info")
  {
    match kind
    case "success" => Icon(CheckCircle, "success")
    case "warning" => Icon(AlertTriangle, "warning")
    case "error" => Icon(XCircle, "destructive")
    case _ => Icon(Info, "info")
  }

  /** `getNotificationBorderColor`. */
  function BorderFor(kind: string): (b: string)
    ensures kind !in {"success", "warning", "error"} ==> b == "border-l-info"
  {
    match kind
    case "success" => "border-l-success"
    case "warning" => "border-l-warning"
    case "error" => "border-l-destructive"
    case _ => "border-l-info"
  }

  /** The two switches agree: the border has the icon's colour, for every type. */
  lemma BorderMatchesIcon(kind: string)
    ensures BorderFor(kind) == "border-l-" + IconFor(kind).tint
  {
  }

  /** The sheet description. */
  function HeaderText(unreadCount: int): (t: string)
    ensures unreadCount > 0 ==> t == IntText(unreadCount) + " unread notifications"
    ensures t == "All caught up!" <==> unreadCount <= 0
  {
    if unreadCount > 0 then
      assert IsDigit(IntText(unreadCount)[0]);
      IntText(unreadCount) + " unread notifications"
    else "All caught up!"
  }

  /** The "Mark all read" button is rendered. */
  function ShowsMarkAll(unreadCount: int): (b: bool)
    ensures b <==> HeaderText(unreadCount) != "All caught up!"
  {
    unreadCount > 0
  }

  /** What a click on a row or on its check button does: `markAsRead` of the
      row's id, only for an unread row (the button is rendered only then). */
  function RowClick(n: Notification): (call: Option<nat>)
    ensures call.Some? <==> !n.read
    ensures call.Some? ==> call.value == n.id
  {
    if !n.read then Some(n.id) else None
  }

  /** The "New" badge of a row. */
  function ShowsNewBadge(n: Notification): (b: bool)
    ensures b <==> RowClick(n).Some?
  {
    !n.read
  }

  datatype Body = Spinner | NoNotifications | List(rows: seq<Notification>)

  function BodyFor(isLoading: bool, ns: seq<Notification>): (b: Body)
    ensures b == Spinner <==> isLoading
    ensures b == NoNotifications <==> !isLoading && ns == []
    ensures b.List? ==> b.rows == ns
  {
    if isLoading then Spinner else if ns == [] then NoNotifications else List(ns)
  }

  /** Marks issued from the panel never hit an already-read row, so with
      unique ids each one keeps the hook's counter exact. */
  lemma PanelMarksKeepCountExact(ns: seq<Notification>, count: int, k: nat)
    requires UniqueIds(ns) && count == |Unread(ns)| && k < |ns|
    requires RowClick(ns[k]).Some?
    ensures Decremented(count) == |Unread(MarkedRead(ns, RowClick(ns[k]).value))|
  {
    CountStaysExact(ns, count, ns[k].id, k);
  }
}

/** Frontend/src/components/ui/notification-badge.tsx. */
module CappedBadge {
  import opened Common

  /** Both variants render the children; a badge text may follow them. */
  datatype BadgeView = ChildrenOnly | ChildrenWithBadge(text: string)

  const DefaultMax: int := 99

  /** `max` is `None` when the prop is left at its default. */
  function Render(count: int, max: Option<int>): (v: BadgeView)
    ensures count <= 0 <==> v == ChildrenOnly
    ensures var m := if max.Some? then max.value else DefaultMax;
            count > 0 ==> v.text == (if count > m then IntText(m) + "+" else Decimal(count))
  {
    if count <= 0 then ChildrenOnly
    else
      var m := if max.Some? then max.value else DefaultMax;
      ChildrenWithBadge(if count > m then IntText(m) + "+" else IntText(count))
  }
}

/** Frontend/src/components/ui/NotificationBadge.jsx. */
module PlainBadge {
  import opened Common
  import CappedBadge

  /** `count` is `None` when the prop is left at its default, 0. */
  function Render(count: Option<int>): (v: CappedBadge.BadgeView)
    ensures var c := if count.Some? then count.value else 0;
            (v == CappedBadge.ChildrenOnly <==> c <= 0)
            && (c > 99 ==> v.text == "99+")
            && (0 < c <= 99 ==> v.text == Decimal(c))
  {
    var c := if count.Some? then count.value else 0;
    if c > 0 then CappedBadge.ChildrenWithBadge(if c > 99 then "99+" else IntText(c))
    else CappedBadge.ChildrenOnly
  }

  /** With the other badge at its default cap the two agree on every count;
      with no count this one shows nothing. */
  lemma BadgesAgree(count: int)
    ensures Render(Some(count)) == CappedBadge.Render(count, None)
    ensures Render(None) == CappedBadge.ChildrenOnly
  {
    assert Decimal(99) == Decimal(9) + [DigitChar(9)];
    assert IntText(99) == "99";
  }
}
