/** The records and enumerations the order pipeline passes around, with
    money held as integer cents. */
module Types {
  import opened Wrappers

  /** A catalog entry; `price` is in cents. */
  datatype MenuItem = MenuItem(id: string, name: string, price: nat, image: string, description: string)

  /** A priced order line: the catalog entry it was built from plus the
      requested quantity. The quantity is whatever the assistant sent; no
      range check is ever applied to it. */
  datatype OrderItem = OrderItem(item: MenuItem, quantity: int)

  datatype OrderStatus = Pending | Approved | Rejected

  /** An order. `total` is in cents and is stored, never recomputed.
      `trackingNumber` is read by the status card but never written. */
  datatype Order = Order(
    id: string,
    items: seq<OrderItem>,
    total: int,
    status: OrderStatus,
    timestamp: string,
    trackingNumber: Option<string>)

  /** Who a transcript message is shown as coming from. */
  datatype Sender = FromUser | FromBot | FromSystem

  /** One entry of the on-screen transcript. */
  datatype Message = Message(id: nat, text: string, sender: Sender, timestamp: string)

  /** The two roles of the conversation history sent to the assistant
      (`'user'` and `'model'`). */
  datatype Role = User | Model

  /** One turn of the history, with its single text part. */
  datatype Turn = Turn(role: Role, text: string)

  /** One `{id, quantity}` entry of a `place_order` call. */
  datatype ItemRequest = ItemRequest(id: string, quantity: int)

  /** The readings of the clock an event takes: `Date.now()`,
      `toISOString()` and `toLocaleTimeString()`. */
  datatype Instant = Instant(millis: nat, isoTime: string, localTime: string)

  /** What a line costs: unit price times quantity, in cents. */
  function Subtotal(line: OrderItem): int {
    line.item.price * line.quantity
  }

  /** The sum of the line subtotals, accumulated from the first line to the
      last, as a running total would be. */
  function LinesTotal(lines: seq<OrderItem>): int
    decreases |lines|
  {
    if |lines| == 0 then 0 else LinesTotal(lines[..|lines| - 1]) + Subtotal(lines[|lines| - 1])
  }

  /** Adding a line in front adds its subtotal to the running total. */
  lemma {:induction false} LinesTotalCons(line: OrderItem, rest: seq<OrderItem>)
    ensures LinesTotal([line] + rest) == Subtotal(line) + LinesTotal(rest)
    decreases |rest|
  {
    if |rest| > 0 {
      var all := [line] + rest;
      assert all[..|all| - 1] == [line] + rest[..|rest| - 1];
      LinesTotalCons(line, rest[..|rest| - 1]);
    }
  }

  /** One displayed row of an order card: `quantity x name` and the line's
      subtotal. */
  datatype LineRow = LineRow(quantity: int, name: string, subtotal: int)

  /** The rows an order card shows, one per line, in line order. */
  function LineRows(lines: seq<OrderItem>): (rows: seq<LineRow>)
    ensures |rows| == |lines|
    ensures forall i :: 0 <= i < |lines| ==>
      rows[i].quantity == lines[i].quantity && rows[i].name == lines[i].item.name
      && rows[i].subtotal == lines[i].item.price * lines[i].quantity
    decreases |lines|
  {
    if |lines| == 0 then [] else [LineRow(lines[0].quantity, lines[0].item.name, Subtotal(lines[0]))] + LineRows(lines[1..])
  }

  /** Every order id in the list is different. */
  predicate UniqueIds(orders: seq<Order>) {
    forall i, j :: 0 <= i < j < |orders| ==> orders[i].id != orders[j].id
  }

  /** The order's stored total is the sum of its lines. */
  predicate WellPriced(order: Order) {
    order.total == LinesTotal(order.items)
  }
}
