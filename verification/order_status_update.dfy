/** The customer-facing status card of an order, without its icon and
    colours. */
module OrderStatusUpdate {
  import opened Wrappers
  import opened Text
  import opened Types

  /** The title and body of a status card. */
  datatype StatusInfo = StatusInfo(title: string, message: string)

  const PendingMessage := "We've received your order and it's waiting for admin approval."
  const ApprovedMessage := "Great news! Your order is being prepared for delivery."
  const RejectedMessage := "We're sorry, but your order was rejected. Please contact support for more details."

  /** The order carries a tracking number that is shown: present and
      non-empty. */
  predicate HasTracking(order: Order) {
    order.trackingNumber.Some? && order.trackingNumber.value != ""
  }

  /** `getStatusInfo`. */
  function GetStatusInfo(order: Order): (info: StatusInfo)
    ensures "Order #" + Take(order.id, 8) <= info.title
    ensures order.status == Pending ==>
      info == StatusInfo("Order #" + Take(order.id, 8) + " Placed", PendingMessage)
    ensures order.status == Rejected ==>
      info == StatusInfo("Order #" + Take(order.id, 8) + " Rejected", RejectedMessage)
    ensures order.status == Approved ==> info.title == "Order #" + Take(order.id, 8) + " Approved!"
    ensures order.status == Approved && HasTracking(order) ==>
      info.message == ApprovedMessage + " Tracking: " + order.trackingNumber.value
    ensures order.status == Approved && !HasTracking(order) ==> info.message == ApprovedMessage
  {
    var head := "Order #" + Take(order.id, 8);
    match order.status
    case Pending => StatusInfo(head + " Placed", PendingMessage)
    case Approved =>
      StatusInfo(head + " Approved!",
                 ApprovedMessage + (if HasTracking(order) then " Tracking: " + order.trackingNumber.value else ""))
    case Rejected => StatusInfo(head + " Rejected", RejectedMessage)
  }

  /** Title and body depend only on the id, the status and (when approved)
      the tracking number, never on the lines or the total. */
  lemma StatusInfoIgnoresContents(a: Order, b: Order)
    requires a.id == b.id && a.status == b.status
    requires a.status == Approved ==> a.trackingNumber == b.trackingNumber
    ensures GetStatusInfo(a) == GetStatusInfo(b)
  {
  }

  /** The whole status card: title, body, one row per line, stored total. */
  datatype StatusCard = StatusCard(info: StatusInfo, rows: seq<LineRow>, total: int)

  function StatusCardOf(order: Order): (card: StatusCard)
    ensures card.info == GetStatusInfo(order)
    ensures card.total == order.total
    ensures |card.rows| == |order.items|
    ensures forall i :: 0 <= i < |order.items| ==>
      card.rows[i].subtotal == order.items[i].item.price * order.items[i].quantity
  {
    StatusCard(GetStatusInfo(order), LineRows(order.items), order.total)
  }
}
