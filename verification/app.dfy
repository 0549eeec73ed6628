/** The app's state and its three transitions: a customer message with the
    assistant's reply, and a staff approval or rejection. */
module App {
  import opened Wrappers
  import opened Text
  import opened Types
  import opened Constants
  import opened GeminiService

  /** The transcript on screen, the orders, and the history the assistant
      is sent on the next message. */
  datatype AppState = AppState(messages: seq<Message>, orders: seq<Order>, chatHistory: seq<Turn>)

  /** The state the app starts in; `loadTime` is when the opening message
      was stamped. */
  function InitialState(loadTime: string): (r: AppState)
    ensures r.orders == [] && r.chatHistory == []
    ensures r.messages == [InitialBotMessage(loadTime)]
  {
    AppState([InitialBotMessage(loadTime)], [], [])
  }

  /** `addMessage`: appends a message stamped with `at`. */
  function AddMessage(messages: seq<Message>, text: string, sender: Sender, at: Instant): (r: seq<Message>)
    ensures |r| == |messages| + 1 && r[..|messages|] == messages
    ensures r[|messages|].id == at.millis && r[|messages|].timestamp == at.localTime
    ensures r[|messages|].text == text && r[|messages|].sender == sender
  {
    messages + [Message(at.millis, text, sender, at.localTime)]
  }

  const PlaceOrderName := "place_order"
  const OrderPlacedNote := "Order placed successfully. System will notify user."
  const OrderErrorNote := "Error processing order."
  const OrderErrorText := "I'm sorry, there was an error processing your order items. Please try again."

  /** `order-${Date.now()}`. */
  function OrderId(millis: nat): (r: string)
    ensures |r| > 6 && r[..6] == "order-" && r[6..] == DecimalDigits(millis)
    ensures ParseDecimal(r[6..]) == millis
  {
    ParseDecimalDigits(millis);
    "order-" + DecimalDigits(millis)
  }

  /** The short id shown to people: the first 8 characters of the id. */
  function ShortId(id: string): string {
    Take(id, 8)
  }

  function OrderPlacedText(id: string): string {
    "Order #" + ShortId(id) + " has been placed! You'll be notified once the admin approves it for delivery."
  }

  /** The reply is a call of the `place_order` function. */
  predicate PlacesOrder(reply: Reply) {
    reply.CallReply? && reply.call.name == PlaceOrderName
  }

  /** The reply is a text that is shown (a non-empty one). */
  predicate ShowsText(reply: Reply) {
    reply.TextReply? && reply.text.Some? && reply.text.value != ""
  }

  /** What the assistant's reply adds after the user's message: at most one
      order, and as many model turns as transcript messages (zero or one). */
  datatype ReplyEffect = ReplyEffect(order: Option<Order>, turns: seq<Turn>, shown: seq<Message>)

  /** The effect of a function call: a `place_order` call either creates a
      PENDING order (with a model note and a SYSTEM message) or reports an
      error (with a model note and a BOT message); any other call does
      nothing. */
  function CallEffect(call: FunctionCall, replied: Instant): (e: ReplyEffect)
    ensures call.name != PlaceOrderName ==> e == ReplyEffect(None, [], [])
    ensures call.name == PlaceOrderName && CreateOrderFromCall(call).Success? ==>
      var d := CreateOrderFromCall(call).value;
      var id := OrderId(replied.millis);
      && e.order == Some(Order(id, d.items, d.total, Pending, replied.isoTime, None))
      && e.turns == [Turn(Model, OrderPlacedNote)]
      && e.shown == [Message(replied.millis, OrderPlacedText(id), FromSystem, replied.localTime)]
    ensures call.name == PlaceOrderName && CreateOrderFromCall(call).Failure? ==>
      && e.order == None
      && e.turns == [Turn(Model, OrderErrorNote)]
      && e.shown == [Message(replied.millis, OrderErrorText, FromBot, replied.localTime)]
  {
    if call.name != PlaceOrderName then ReplyEffect(None, [], [])
    else
      match CreateOrderFromCall(call)
      case Success(d) =>
        var order := Order(OrderId(replied.millis), d.items, d.total, Pending, replied.isoTime, None);
        ReplyEffect(Some(order), [Turn(Model, OrderPlacedNote)],
                    AddMessage([], OrderPlacedText(order.id), FromSystem, replied))
      case Failure(_) =>
        ReplyEffect(None, [Turn(Model, OrderErrorNote)], AddMessage([], OrderErrorText, FromBot, replied))
  }

  /** The effect of a text reply: a non-empty text is echoed verbatim as a
      model turn and a BOT message; an absent or empty one adds nothing. */
  function TextEffect(text: Option<string>, replied: Instant): (e: ReplyEffect)
    ensures e.order == None
    ensures text.Some? && text.value != "" ==>
      && e.turns == [Turn(Model, text.value)]
      && e.shown == [Message(replied.millis, text.value, FromBot, replied.localTime)]
    ensures text.None? || text.value == "" ==> e.turns == [] && e.shown == []
  {
    if text.Some? && text.value != "" then
      ReplyEffect(None, [Turn(Model, text.value)], AddMessage([], text.value, FromBot, replied))
    else
      ReplyEffect(None, [], [])
  }

  /** The branch of `handleSendMessage` that runs once the reply is in. A
      call is handled as a call whatever text came with it. */
  function EffectOf(reply: Reply, replied: Instant): (e: ReplyEffect)
    ensures |e.turns| == |e.shown| <= 1
    ensures |e.turns| == 1 <==> PlacesOrder(reply) || ShowsText(reply)
    ensures e.order.Some? <==> PlacesOrder(reply) && CreateOrderFromCall(reply.call).Success?
  {
    match reply
    case CallReply(call) => CallEffect(call, replied)
    case TextReply(t) => TextEffect(t, replied)
  }

  /** `handleSendMessage`: the user's message `text` was stamped at `sent`,
      the assistant answered `reply` (already classified) and everything
      after the answer is stamped at `replied`. */
  function HandleSendMessage(s: AppState, text: string, reply: Reply, sent: Instant, replied: Instant): (r: AppState)
    // the user's message and turn always come first, then at most one more of each
    ensures |s.messages| + 1 <= |r.messages| <= |s.messages| + 2
    ensures r.messages[..|s.messages| + 1] == s.messages + [Message(sent.millis, text, FromUser, sent.localTime)]
    ensures |s.chatHistory| + 1 <= |r.chatHistory| <= |s.chatHistory| + 2
    ensures r.chatHistory[..|s.chatHistory| + 1] == RequestContents(s.chatHistory, text)
    ensures |r.messages| - |s.messages| == |r.chatHistory| - |s.chatHistory|
    ensures |r.chatHistory| == |s.chatHistory| + 2 <==> PlacesOrder(reply) || ShowsText(reply)
    // earlier orders are untouched; at most one order is added
    ensures |s.orders| <= |r.orders| <= |s.orders| + 1
    ensures r.orders[..|s.orders|] == s.orders
    ensures |r.orders| == |s.orders| + 1 <==> PlacesOrder(reply) && CreateOrderFromCall(reply.call).Success?
    // a placed order
    ensures PlacesOrder(reply) && CreateOrderFromCall(reply.call).Success? ==>
      var d := CreateOrderFromCall(reply.call).value;
      var id := OrderId(replied.millis);
      && r.orders[|s.orders|] == Order(id, d.items, d.total, Pending, replied.isoTime, None)
      && r.chatHistory[|s.chatHistory| + 1] == Turn(Model, OrderPlacedNote)
      && r.messages[|s.messages| + 1] == Message(replied.millis, OrderPlacedText(id), FromSystem, replied.localTime)
    // an order that could not be built
    ensures PlacesOrder(reply) && CreateOrderFromCall(reply.call).Failure? ==>
      && r.chatHistory[|s.chatHistory| + 1] == Turn(Model, OrderErrorNote)
      && r.messages[|s.messages| + 1] == Message(replied.millis, OrderErrorText, FromBot, replied.localTime)
    // a shown text, verbatim in both places
    ensures ShowsText(reply) ==>
      && r.chatHistory[|s.chatHistory| + 1] == Turn(Model, reply.text.value)
      && r.messages[|s.messages| + 1] == Message(replied.millis, reply.text.value, FromBot, replied.localTime)
  {
    var e := EffectOf(reply, replied);
    var messages := AddMessage(s.messages, text, FromUser, sent);
    var history := RequestContents(s.chatHistory, text);
    var added := if e.order.Some? then [e.order.value] else [];
    assert (messages + e.shown)[..|messages|] == messages;
    assert (history + e.turns)[..|history|] == history;
    assert (s.orders + added)[..|s.orders|] == s.orders;
    assert |e.shown| == 1 ==> (messages + e.shown)[|messages|] == e.shown[0];
    assert |e.turns| == 1 ==> (history + e.turns)[|history|] == e.turns[0];
    AppState(messages + e.shown, s.orders + added, history + e.turns)
  }

  /** The orders with every order whose id is `orderId` given `status`. */
  function SetStatus(orders: seq<Order>, orderId: string, status: OrderStatus): (r: seq<Order>)
    ensures |r| == |orders|
    ensures forall i :: 0 <= i < |orders| ==>
      if orders[i].id == orderId then r[i] == orders[i].(status := status) else r[i] == orders[i]
    decreases |orders|
  {
    if |orders| == 0 then []
    else
      var head := if orders[0].id == orderId then orders[0].(status := status) else orders[0];
      [head] + SetStatus(orders[1..], orderId, status)
  }

  /** `updateOrderStatus`: sets the status of the orders with that id,
      whatever their current status, and posts `message` as a SYSTEM
      message. */
  function UpdateOrderStatus(s: AppState, orderId: string, status: OrderStatus, message: string, at: Instant): (r: AppState)
    ensures r.chatHistory == s.chatHistory
    ensures |r.orders| == |s.orders|
    ensures forall i :: 0 <= i < |s.orders| && s.orders[i].id != orderId ==> r.orders[i] == s.orders[i]
    ensures forall i :: 0 <= i < |s.orders| && s.orders[i].id == orderId ==>
      r.orders[i] == s.orders[i].(status := status)
    ensures r.messages == s.messages + [Message(at.millis, message, FromSystem, at.localTime)]
  {
    AppState(AddMessage(s.messages, message, FromSystem, at), SetStatus(s.orders, orderId, status), s.chatHistory)
  }

  function ApprovedText(orderId: string): string {
    "Great news! Your order #" + ShortId(orderId) + " has been approved and is being prepared for delivery."
  }

  function RejectedText(orderId: string): string {
    "We're sorry, your order #" + ShortId(orderId) + " was rejected. Please contact us for details."
  }

  /** `handleApproveOrder`. */
  function HandleApproveOrder(s: AppState, orderId: string, at: Instant): (r: AppState)
    ensures r.orders == SetStatus(s.orders, orderId, Approved)
    ensures r.chatHistory == s.chatHistory
    ensures |r.messages| == |s.messages| + 1 && r.messages[..|s.messages|] == s.messages
    ensures r.messages[|s.messages|].sender == FromSystem
    ensures Contains(r.messages[|s.messages|].text, Take(orderId, 8))
  {
    ContainsMiddle("Great news! Your order #", ShortId(orderId), " has been approved and is being prepared for delivery.");
    UpdateOrderStatus(s, orderId, Approved, ApprovedText(orderId), at)
  }

  /** `handleRejectOrder`. */
  function HandleRejectOrder(s: AppState, orderId: string, at: Instant): (r: AppState)
    ensures r.orders == SetStatus(s.orders, orderId, Rejected)
    ensures r.chatHistory == s.chatHistory
    ensures |r.messages| == |s.messages| + 1 && r.messages[..|s.messages|] == s.messages
    ensures r.messages[|s.messages|].sender == FromSystem
    ensures Contains(r.messages[|s.messages|].text, Take(orderId, 8))
  {
    ContainsMiddle("We're sorry, your order #", ShortId(orderId), " was rejected. Please contact us for details.");
    UpdateOrderStatus(s, orderId, Rejected, RejectedText(orderId), at)
  }
}
