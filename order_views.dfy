// The frontend's order views: the status action panels of the two
// OrderManagement components, the caterer's status filter, and the customer
// and caterer dashboards. Order rows keep the two fields the views act on,
// plus the rest of the row as opaque text.

/** The order rows the views receive, and `orders.filter(o => o.status === s)`. */
module OrderRows {
  import opened Common

  datatype OrderRow = OrderRow(id: int, status: string, details: string)

  /** The rows with this status, in their original order. */
  function WithStatus(orders: seq<OrderRow>, status: string): (r: seq<OrderRow>)
    ensures |r| <= |orders|
    ensures forall o :: o in r ==> o in orders && o.status == status
  {
    if orders == [] then []
    else if orders[0].status == status then [orders[0]] + WithStatus(orders[1..], status)
    else WithStatus(orders[1..], status)
  }

  /** Every row with the status is kept. */
  lemma {:induction false} WithStatusKeepsMatches(orders: seq<OrderRow>, status: string, o: OrderRow)
    requires o in orders && o.status == status
    ensures o in WithStatus(orders, status)
  {
    if orders[0] != o {
      WithStatusKeepsMatches(orders[1..], status, o);
    }
  }

  /** The filter keeps every row with the status as often as it occurs, and
      no other row: so its length is the number of such rows. */
  lemma {:induction false} WithStatusCounts(orders: seq<OrderRow>, status: string)
    ensures forall o :: multiset(WithStatus(orders, status))[o] ==
                          if o.status == status then multiset(orders)[o] else 0
  {
    if orders != [] {
      WithStatusCounts(orders[1..], status);
      assert orders == [orders[0]] + orders[1..];
      assert multiset(orders) == multiset([orders[0]]) + multiset(orders[1..]);
    }
  }

  /** Filtering twice by the same status is filtering once. */
  lemma {:induction false} WithStatusIdempotent(orders: seq<OrderRow>, status: string)
    ensures WithStatus(WithStatus(orders, status), status) == WithStatus(orders, status)
  {
    if orders != [] {
      WithStatusIdempotent(orders[1..], status);
    }
  }

  /** The filter keeps the original order: it is a subsequence of its input. */
  lemma {:induction false} WithStatusIsSubsequence(orders: seq<OrderRow>, status: string)
    ensures IsSubsequence(WithStatus(orders, status), orders)
  {
    if orders != [] {
      WithStatusIsSubsequence(orders[1..], status);
      var rest := WithStatus(orders[1..], status);
      if orders[0].status == status {
        assert WithStatus(orders, status) == [orders[0]] + rest;
        assert ([orders[0]] + rest)[1..] == rest;
      }
    }
  }
}

/** Frontend/src/components/order/OrderManagement.jsx. */
module OrderStatusPanel {
  import opened OrderRows

  datatype Glyph = ClockGlyph | CheckCircleGlyph | XCircleGlyph

  datatype Icon = Icon(glyph: Glyph, tint: string)

  predicate KnownStatus(status: string) {
    status in {"pending", "confirmed", "completed", "cancelled"}
  }

  /** `getStatusIcon`: a grey clock for any status it does not know. */
  function StatusIcon(status: string): (i: Icon)
    ensures !KnownStatus(status) ==> i == Icon(ClockGlyph, "text-gray-500")
    ensures KnownStatus(status) ==> i.tint != "text-gray-500"
    ensures i.glyph == XCircleGlyph <==> status == "cancelled"
  {
    match status
    case "pending" => Icon(ClockGlyph, "text-yellow-500")
    case "confirmed" => Icon(CheckCircleGlyph, "text-blue-500")
    case "completed" => Icon(CheckCircleGlyph, "text-green-500")
    case "cancelled" => Icon(XCircleGlyph, "text-red-500")
    case _ => Icon(ClockGlyph, "text-gray-500")
  }

  /** `getStatusColor`: grey for any status it does not know, and a distinct
      colour for each known one. */
  function StatusColor(status: string): (c: string)
    ensures !KnownStatus(status) <==> c == "bg-gray-100 text-gray-800"
  {
    match status
    case "pending" => "bg-yellow-100 text-yellow-800"
    case "confirmed" => "bg-blue-100 text-blue-800"
    case "completed" => "bg-green-100 text-green-800"
    case "cancelled" => "bg-red-100 text-red-800"
    case _ => "bg-gray-100 text-gray-800"
  }

  lemma StatusColorInjective(a: string, b: string)
    requires KnownStatus(a) && KnownStatus(b) && StatusColor(a) == StatusColor(b)
    ensures a == b
  {
  }

  /** A button that calls `updateOrderStatus(order.id, target)`. */
  datatype Action = Action(caption: string, target: string)

  datatype StatusControl = Buttons(actions: seq<Action>) | DoneBadge(caption: string) | NoControl

  /** `getStatusActions`. */
  function StatusActions(status: string): (c: StatusControl)
    ensures status == "pending" <==> c == Buttons([Action("Confirm", "confirmed"), Action("Cancel", "cancelled")])
    ensures status == "confirmed" <==> c == Buttons([Action("Mark Complete", "completed")])
    ensures status == "completed" <==> c == DoneBadge("Completed")
    ensures status == "cancelled" <==> c == DoneBadge("Cancelled")
    ensures !KnownStatus(status) <==> c == NoControl
  {
    match status
    case "pending" => Buttons([Action("Confirm", "confirmed"), Action("Cancel", "cancelled")])
    case "confirmed" => Buttons([Action("Mark Complete", "completed")])
    case "completed" => DoneBadge("Completed")
    case "cancelled" => DoneBadge("Cancelled")
    case _ => NoControl
  }

  /** The statuses the panel lets a caterer move an order to. */
  function Offered(status: string): (targets: set<string>)
    ensures "pending" !in targets
    ensures status in {"completed", "cancelled"} || !KnownStatus(status) ==> targets == {}
  {
    var c := StatusActions(status);
    if c.Buttons? then set a | a in c.actions :: a.target else {}
  }

  lemma OfferedTransitions()
    ensures Offered("pending") == {"confirmed", "cancelled"}
    ensures Offered("confirmed") == {"completed"}
  {
    var p := StatusActions("pending").actions;
    assert p[0].target == "confirmed" && p[1].target == "cancelled";
    assert forall a | a in p :: a.target in {"confirmed", "cancelled"};
    var c := StatusActions("confirmed").actions;
    assert c[0].target == "completed";
  }

  /** A sequence of statuses an order passes through by pressing the
      panel's buttons. */
  predicate IsRun(run: seq<string>) {
    forall i :: 0 <= i < |run| - 1 ==> run[i + 1] in Offered(run[i])
  }

  /** How many more presses a status allows at most. */
  function Rank(status: string): nat {
    if status == "pending" then 2 else if status == "confirmed" then 1 else 0
  }

  lemma OfferedLowersRank(s: string, t: string)
    requires t in Offered(s)
    ensures Rank(t) < Rank(s)
  {
    OfferedTransitions();
  }

  lemma {:induction false} RunRanks(run: seq<string>, i: nat)
    requires IsRun(run) && i < |run|
    ensures Rank(run[i]) + i <= Rank(run[0])
  {
    if i > 0 {
      RunRanks(run, i - 1);
      OfferedLowersRank(run[i - 1], run[i]);
    }
  }

  /** Through this view an order takes at most two steps, and never comes
      back to "pending". */
  lemma RunsAreShort(run: seq<string>)
    requires IsRun(run) && |run| > 0
    ensures |run| <= 3
    ensures forall i :: 0 < i < |run| ==> run[i] != "pending"
  {
    RunRanks(run, |run| - 1);
    forall i | 0 < i < |run| ensures run[i] != "pending" {
      RunRanks(run, i);
    }
  }

  /** What a reply to `loadOrders` can be. */
  datatype OrdersReply = ArrayValue(rows: seq<OrderRow>) | NotAnArray | LoadFailed

  /** What `updateOrderStatus` asks the API to do. */
  datatype StatusUpdate = StatusUpdate(orderId: int, status: string)

  class OrderManagement {
    var orders: seq<OrderRow>
    var isLoading: bool

    constructor ()
      ensures orders == [] && isLoading
    {
      orders := [];
      isLoading := true;
    }

    method BeginLoad()
      modifies this
      ensures isLoading && orders == old(orders)
    {
      isLoading := true;
    }

    /** `Array.isArray(data) ? data : []`; a failed load keeps the list. */
    method FinishLoad(reply: OrdersReply)
      modifies this
      ensures !isLoading
      ensures orders == match reply
                        case ArrayValue(rows) => rows
                        case NotAnArray => []
                        case LoadFailed => old(orders)
    {
      match reply {
        case ArrayValue(rows) => orders := rows;
        case NotAnArray => orders := [];
        case LoadFailed =>
      }
      isLoading := false;
    }

    /** `updateOrderStatus`: the request, and whether the list is reloaded
        and `onOrderUpdate` called. It sets no state of its own. */
    method UpdateOrderStatus(orderId: int, newStatus: string, succeeded: bool, hasOnOrderUpdate: bool)
      returns (request: StatusUpdate, reload: bool, notifyParent: bool)
      ensures request == StatusUpdate(orderId, newStatus)
      ensures reload <==> succeeded
      ensures notifyParent <==> succeeded && hasOnOrderUpdate
    {
      request := StatusUpdate(orderId, newStatus);
      reload := succeeded;
      notifyParent := succeeded && hasOnOrderUpdate;
    }
  }
}

/** Frontend/src/components/caterer/OrderManagement.jsx. */
module CatererOrders {
  import opened Common
  import opened OrderRows
  import OrderStatusPanel

  /** `filteredOrders`. */
  function Filtered(orders: seq<OrderRow>, filterStatus: string): (r: seq<OrderRow>)
    ensures filterStatus == "all" ==> r == orders
    ensures filterStatus != "all" ==> r == WithStatus(orders, filterStatus)
  {
    if filterStatus == "all" then orders else WithStatus(orders, filterStatus)
  }

  /** Any filter other than 'all' keeps exactly the rows with that status,
      in their original order. */
  lemma FilteredExactly(orders: seq<OrderRow>, filterStatus: string, o: OrderRow)
    requires filterStatus != "all"
    ensures o in Filtered(orders, filterStatus) <==> o in orders && o.status == filterStatus
    ensures IsSubsequence(Filtered(orders, filterStatus), orders)
  {
    if o in orders && o.status == filterStatus {
      WithStatusKeepsMatches(orders, filterStatus, o);
    }
    WithStatusIsSubsequence(orders, filterStatus);
  }

  /** The message shown when the filtered list is empty. */
  function EmptyMessage(filterStatus: string): (m: string)
    ensures filterStatus == "all" ==> m == "No orders yet"
    ensures filterStatus != "all" ==> m == "No " + filterStatus + " orders"
  {
    if filterStatus == "all" then "No orders yet" else "No " + filterStatus + " orders"
  }

  /** `getStatusVariant`: secondary for pending and for anything unknown. */
  function StatusVariant(status: string): (v: string)
    ensures v == "secondary" <==> status == "pending" || !OrderStatusPanel.KnownStatus(status)
    ensures v == "default" <==> status == "confirmed"
    ensures v == "outline" <==> status == "completed"
    ensures v == "destructive" <==> status == "cancelled"
  {
    match status
    case "pending" => "secondary"
    case "confirmed" => "default"
    case "completed" => "outline"
    case "cancelled" => "destructive"
    case _ => "secondary"
  }

  datatype Action = Action(caption: string, target: string)

  /** The buttons under each row. */
  function RowActions(status: string): (acts: seq<Action>)
    ensures status == "pending" <==> acts == [Action("Confirm Order", "confirmed"), Action("Cancel", "cancelled")]
    ensures status == "confirmed" <==> acts == [Action("Mark Complete", "completed")]
    ensures status != "pending" && status != "confirmed" <==> acts == []
  {
    if status == "pending" then [Action("Confirm Order", "confirmed"), Action("Cancel", "cancelled")]
    else if status == "confirmed" then [Action("Mark Complete", "completed")]
    else []
  }

  /** The caterer view offers the same transitions as the order panel; only
      the button labels differ. */
  lemma SameTransitionsAsOrderPanel(status: string)
    ensures (set a | a in RowActions(status) :: a.target) == OrderStatusPanel.Offered(status)
  {
    OrderStatusPanel.OfferedTransitions();
    var acts := RowActions(status);
    if status == "pending" {
      assert acts[0].target == "confirmed" && acts[1].target == "cancelled";
      assert forall a | a in acts :: a.target in {"confirmed", "cancelled"};
    } else if status == "confirmed" {
      assert acts[0].target == "completed";
    }
  }

  class CatererOrderList {
    var orders: seq<OrderRow>
    var isLoading: bool
    var filterStatus: string

    constructor ()
      ensures orders == [] && isLoading && filterStatus == "all"
    {
      orders := [];
      isLoading := true;
      filterStatus := "all";
    }

    method SetFilter(status: string)
      modifies this
      ensures filterStatus == status && orders == old(orders) && isLoading == old(isLoading)
    {
      filterStatus := status;
    }

    method BeginLoad()
      modifies this
      ensures isLoading && orders == old(orders) && filterStatus == old(filterStatus)
    {
      isLoading := true;
    }

    /** `setOrders(data || [])`: `reply` is `Some(data)` when the request
        resolved, with `data` itself absent when it is null or undefined. */
    method FinishLoad(reply: Option<Option<seq<OrderRow>>>)
      modifies this
      ensures !isLoading && filterStatus == old(filterStatus)
      ensures reply.None? ==> orders == old(orders)
      ensures reply.Some? ==> orders == (if reply.value.Some? then reply.value.value else [])
    {
      if reply.Some? {
        orders := if reply.value.Some? then reply.value.value else [];
      }
      isLoading := false;
    }

    /** `updateOrderStatus`: the request, and whether the list is reloaded
        and `onStatsUpdate` called. A failure is only logged. */
    method UpdateOrderStatus(orderId: int, newStatus: string, succeeded: bool, hasOnStatsUpdate: bool)
      returns (request: OrderStatusPanel.StatusUpdate, reload: bool, notifyParent: bool)
      ensures request == OrderStatusPanel.StatusUpdate(orderId, newStatus)
      ensures reload <==> succeeded
      ensures notifyParent <==> succeeded && hasOnStatsUpdate
    {
      request := OrderStatusPanel.StatusUpdate(orderId, newStatus);
      reload := succeeded;
      notifyParent := succeeded && hasOnStatsUpdate;
    }
  }
}

/** Frontend/src/pages/customer/CustomerDashboard.jsx. */
module CustomerDashboard {
  import opened Common
  import opened OrderRows

  /** A meal card of today's menu; `menuItemId` is what "Order Now" sends. */
  datatype MenuCard = MenuCard(menuItemId: int, details: string)

  /** The two responses `Promise.all` waits for, each with its list field
      absent or present; `None` when either request failed. */
  datatype DashboardData = DashboardData(meals: Option<seq<MenuCard>>, orders: Option<seq<OrderRow>>)

  /** `orders.slice(0, 5)`. */
  function RecentOrders(orders: seq<OrderRow>): (r: seq<OrderRow>)
    ensures |r| == if |orders| < 5 then |orders| else 5
    ensures r == orders[..|r|]
  {
    if |orders| < 5 then orders else orders[..5]
  }

  /** The cancel button is shown exactly for pending orders. */
  function CancelOffered(o: OrderRow): (b: bool)
    ensures b <==> BadgeVariant(o.status) == "secondary"
  {
    o.status == "pending"
  }

  function BadgeVariant(status: string): (v: string)
    ensures v == "default" <==> status == "completed"
    ensures v == "secondary" <==> status == "pending"
    ensures v == "destructive" <==> status != "completed" && status != "pending"
  {
    if status == "completed" then "default" else if status == "pending" then "secondary" else "destructive"
  }

  /** The body of `createOrder`: only the menu item id. */
  datatype NewOrder = NewOrder(menuItemId: int)

  class CustomerDashboardView {
    var menu: seq<MenuCard>
    var orders: seq<OrderRow>
    var isLoading: bool
    var isOrdering: bool

    constructor ()
      ensures menu == [] && orders == [] && isLoading && !isOrdering
    {
      menu := [];
      orders := [];
      isLoading := true;
      isOrdering := false;
    }

    /** The order buttons are disabled while an order is being placed. */
    function OrderButtonsDisabled(): (d: bool)
      reads this
      ensures d <==> isOrdering
    {
      isOrdering
    }

    method BeginLoad()
      modifies this
      ensures isLoading && menu == old(menu) && orders == old(orders) && isOrdering == old(isOrdering)
    {
      isLoading := true;
    }

    /** Missing lists fall back to []; a failed load keeps both lists. */
    method FinishLoad(data: Option<DashboardData>)
      modifies this
      ensures !isLoading && isOrdering == old(isOrdering)
      ensures data.None? ==> menu == old(menu) && orders == old(orders)
      ensures data.Some? ==> menu == (if data.value.meals.Some? then data.value.meals.value else [])
      ensures data.Some? ==> orders == (if data.value.orders.Some? then data.value.orders.value else [])
    {
      if data.Some? {
        menu := if data.value.meals.Some? then data.value.meals.value else [];
        orders := if data.value.orders.Some? then data.value.orders.value else [];
      }
      isLoading := false;
    }

    method BeginPlaceOrder(card: MenuCard) returns (request: NewOrder)
      modifies this
      ensures isOrdering && request == NewOrder(card.menuItemId)
      ensures menu == old(menu) && orders == old(orders) && isLoading == old(isLoading)
    {
      isOrdering := true;
      request := NewOrder(card.menuItemId);
    }

    /** The dashboard is reloaded after a successful order. */
    method FinishPlaceOrder(succeeded: bool) returns (reload: bool)
      modifies this
      ensures !isOrdering && reload == succeeded
      ensures menu == old(menu) && orders == old(orders) && isLoading == old(isLoading)
    {
      isOrdering := false;
      reload := succeeded;
    }

    /** `cancelOrder`: the id it deletes and whether it reloads. */
    method CancelOrder(o: OrderRow, succeeded: bool) returns (deleted: int, reload: bool)
      ensures deleted == o.id && reload == succeeded
    {
      deleted := o.id;
      reload := succeeded;
    }
  }
}

/** Frontend/src/pages/caterer/CatererDashboard.jsx. */
module CatererDashboard {
  import opened Common
  import opened OrderRows

  datatype Stats = Stats(totalOrders: nat, todayRevenue: int, pendingOrders: nat, totalMeals: nat)

  const InitialStats: Stats := Stats(0, 0, 0, 0)

  /** What `loadDashboardStats` computes from the three responses;
      `revenueTotal` is `revenue.total`, absent when the field is missing. */
  function ComputeStats(orders: seq<OrderRow>, mealCount: nat, revenueTotal: Option<int>): (s: Stats)
    ensures s.totalOrders == |orders| && s.totalMeals == mealCount
    ensures s.pendingOrders == |WithStatus(orders, "pending")|
    ensures s.pendingOrders <= s.totalOrders
    ensures s.todayRevenue == (if revenueTotal.Some? then revenueTotal.value else 0)
  {
    Stats(|orders|, if revenueTotal.Some? && revenueTotal.value != 0 then revenueTotal.value else 0,
          |WithStatus(orders, "pending")|, mealCount)
  }

  class CatererDashboardView {
    var stats: Stats
    var isLoading: bool

    constructor ()
      ensures stats == InitialStats && isLoading
    {
      stats := InitialStats;
      isLoading := true;
    }

    method BeginLoad()
      modifies this
      ensures isLoading && stats == old(stats)
    {
      isLoading := true;
    }

    /** `loaded` is `None` when any of the three requests failed. */
    method FinishLoad(loaded: Option<(seq<OrderRow>, nat, Option<int>)>)
      modifies this
      ensures !isLoading
      ensures loaded.None? ==> stats == old(stats)
      ensures loaded.Some? ==> stats == ComputeStats(loaded.value.0, loaded.value.1, loaded.value.2)
    {
      if loaded.Some? {
        var (orders, mealCount, revenueTotal) := loaded.value;
        stats := ComputeStats(orders, mealCount, revenueTotal);
      }
      isLoading := false;
    }
  }
}
