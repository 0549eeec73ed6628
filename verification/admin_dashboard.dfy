/** The staff dashboard's derived views: the pending and processed lists,
    and what each order card shows and offers. */
module AdminDashboard {
  import opened Text
  import opened Types
  import opened Collections

  predicate IsPending(o: Order) {
    o.status == Pending
  }

  predicate IsProcessed(o: Order) {
    o.status != Pending
  }

  /** The "Pending Orders" column. */
  function PendingOrders(orders: seq<Order>): (r: seq<Order>)
    ensures forall o :: o in r <==> o in orders && o.status == Pending
  {
    Filter(orders, IsPending)
  }

  /** The "Order History" column: everything that is not pending. */
  function ProcessedOrders(orders: seq<Order>): (r: seq<Order>)
    ensures forall o :: o in r <==> o in orders && o.status != Pending
  {
    Filter(orders, IsProcessed)
  }

  /** The two columns split the orders: every order, with its multiplicity,
      is in exactly one of them. */
  lemma ColumnsPartitionOrders(orders: seq<Order>)
    ensures multiset(PendingOrders(orders)) + multiset(ProcessedOrders(orders)) == multiset(orders)
    ensures |PendingOrders(orders)| + |ProcessedOrders(orders)| == |orders|
  {
    FilterSplitsMultiset(orders, IsPending, IsProcessed);
    assert |multiset(PendingOrders(orders))| + |multiset(ProcessedOrders(orders))| == |multiset(orders)|;
  }

  /** Each column lists its orders in the order they appear in the store
      (no sorting): it is a subsequence of the orders. */
  lemma ColumnsKeepStoreOrder(orders: seq<Order>) returns (pendingAt: seq<nat>, processedAt: seq<nat>)
    ensures Embeds(PendingOrders(orders), orders, pendingAt)
    ensures Embeds(ProcessedOrders(orders), orders, processedAt)
  {
    pendingAt := FilterKeepsOrder(orders, IsPending);
    processedAt := FilterKeepsOrder(orders, IsProcessed);
  }

  /** The two buttons of a card. */
  datatype AdminAction = Reject | Approve

  /** What an order card shows: its title, status badge, one row per line,
      the stored total, and the buttons it offers. */
  datatype OrderCard = OrderCard(title: string, badge: OrderStatus, rows: seq<LineRow>, total: int, actions: seq<AdminAction>)

  /** The card for one order. Reject and Approve are offered on pending
      orders only; the total shown is the stored one. */
  function CardOf(order: Order): (card: OrderCard)
    ensures card.actions != [] <==> order.status == Pending
    ensures order.status == Pending ==> card.actions == [Reject, Approve]
    ensures card.title == "Order #" + Take(order.id, 8)
    ensures card.badge == order.status
    ensures card.total == order.total
    ensures card.rows == LineRows(order.items)
    ensures |card.rows| == |order.items|
    ensures forall i :: 0 <= i < |order.items| ==>
      card.rows[i].quantity == order.items[i].quantity && card.rows[i].name == order.items[i].item.name
      && card.rows[i].subtotal == order.items[i].item.price * order.items[i].quantity
  {
    OrderCard("Order #" + Take(order.id, 8), order.status, LineRows(order.items), order.total,
              if order.status == Pending then [Reject, Approve] else [])
  }

  /** The whole dashboard: a card per pending order, then a card per
      processed one. */
  datatype Dashboard = Dashboard(pending: seq<OrderCard>, processed: seq<OrderCard>)

  function DashboardOf(orders: seq<Order>): (d: Dashboard)
    ensures |d.pending| == |PendingOrders(orders)| && |d.processed| == |ProcessedOrders(orders)|
    ensures forall k :: 0 <= k < |d.pending| ==> d.pending[k] == CardOf(PendingOrders(orders)[k])
    ensures forall k :: 0 <= k < |d.processed| ==> d.processed[k] == CardOf(ProcessedOrders(orders)[k])
    ensures forall k :: 0 <= k < |d.pending| ==> d.pending[k].actions == [Reject, Approve]
    ensures forall k :: 0 <= k < |d.processed| ==> d.processed[k].actions == []
  {
    var pending := PendingOrders(orders);
    var processed := ProcessedOrders(orders);
    Dashboard(seq(|pending|, k requires 0 <= k < |pending| => CardOf(pending[k])),
              seq(|processed|, k requires 0 <= k < |processed| => CardOf(processed[k])))
  }
}
