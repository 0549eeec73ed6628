/** Properties of the order lifecycle that span several components: what the
    store keeps invariant across customer messages and staff decisions, and
    what the dashboard's pending-only buttons add to `updateOrderStatus`. */
module Lifecycle {
  import opened Wrappers
  import opened Text
  import opened Types
  import opened Constants
  import opened Collections
  import opened GeminiService
  import opened App
  import opened AdminDashboard
  import OrderStatusUpdate
  import Database

  /** Every order's stored total is the sum of its lines. */
  predicate AllWellPriced(orders: seq<Order>) {
    forall i :: 0 <= i < |orders| ==> WellPriced(orders[i])
  }

  /** A customer message keeps every order well priced: the one it may add is
      priced by the builder. */
  lemma SendKeepsPricing(s: AppState, text: string, reply: Reply, sent: Instant, replied: Instant)
    requires AllWellPriced(s.orders)
    ensures AllWellPriced(HandleSendMessage(s, text, reply, sent, replied).orders)
  {
    var r := HandleSendMessage(s, text, reply, sent, replied);
    forall i | 0 <= i < |r.orders| ensures WellPriced(r.orders[i]) {
      if i < |s.orders| {
        assert r.orders[i] == r.orders[..|s.orders|][i];
      }
    }
  }

  /** A status change keeps every order well priced: it touches only
      statuses. */
  lemma SetStatusKeepsPricing(orders: seq<Order>, orderId: string, status: OrderStatus)
    requires AllWellPriced(orders)
    ensures AllWellPriced(SetStatus(orders, orderId, status))
  {
  }

  /** The steps a status may take: stay, or leave PENDING. */
  predicate AllowedStep(before: OrderStatus, after: OrderStatus) {
    before == after || before == Pending
  }

  /** Pressing a card's button. */
  function Press(s: AppState, orderId: string, action: AdminAction, at: Instant): (r: AppState)
    ensures |r.orders| == |s.orders| && r.chatHistory == s.chatHistory
    ensures forall i :: 0 <= i < |s.orders| && s.orders[i].id == orderId ==>
      r.orders[i] == s.orders[i].(status := if action == Approve then Approved else Rejected)
    ensures forall i :: 0 <= i < |s.orders| && s.orders[i].id != orderId ==> r.orders[i] == s.orders[i]
    ensures |r.messages| == |s.messages| + 1 && r.messages[..|s.messages|] == s.messages
    ensures r.messages[|s.messages|].sender == FromSystem
    ensures Contains(r.messages[|s.messages|].text, Take(orderId, 8))
  {
    match action
    case Approve => HandleApproveOrder(s, orderId, at)
    case Reject => HandleRejectOrder(s, orderId, at)
  }

  /** With unique order ids, pressing a button the dashboard offers decides
      exactly that order, which was PENDING, and leaves every other order
      alone: through the UI, statuses only ever leave PENDING. */
  lemma OfferedButtonsOnlyDecidePending(s: AppState, k: nat, action: AdminAction, at: Instant)
    requires UniqueIds(s.orders)
    requires k < |s.orders|
    requires action in CardOf(s.orders[k]).actions
    ensures var r := Press(s, s.orders[k].id, action, at);
      && s.orders[k].status == Pending
      && r.orders[k].status == (if action == Approve then Approved else Rejected)
      && (forall i :: 0 <= i < |s.orders| && i != k ==> r.orders[i] == s.orders[i])
      && (forall i :: 0 <= i < |s.orders| ==> AllowedStep(s.orders[i].status, r.orders[i].status))
  {
  }

  /** `updateOrderStatus` itself has no PENDING guard: rejecting an approved
      order overwrites the approval. Only the dashboard's buttons prevent it. */
  lemma RejectOverwritesApproval(s: AppState, k: nat, at: Instant)
    requires k < |s.orders|
    requires s.orders[k].status == Approved
    ensures HandleRejectOrder(s, s.orders[k].id, at).orders[k].status == Rejected
    ensures !AllowedStep(s.orders[k].status, HandleRejectOrder(s, s.orders[k].id, at).orders[k].status)
  {
  }

  /** Without unique ids the buttons do not protect decided orders: when an
      APPROVED order shares its id with a PENDING one, the Reject button the
      pending card offers also rejects the approved order. */
  lemma SharedIdLetsRejectOverwriteApproval(msgs: seq<Message>, decided: Order, pending: Order,
                                            history: seq<Turn>, at: Instant)
    requires decided.status == Approved && pending.status == Pending
    requires decided.id == pending.id
    ensures var s := AppState(msgs, [decided, pending], history);
      && Reject in CardOf(pending).actions
      && Press(s, pending.id, Reject, at).orders[0].status == Rejected
      && !AllowedStep(decided.status, Press(s, pending.id, Reject, at).orders[0].status)
  {
  }

  /** How many PENDING orders carry the id. */
  function PendingWithId(orders: seq<Order>, orderId: string): nat
    decreases |orders|
  {
    if |orders| == 0 then 0
    else (if orders[0].id == orderId && orders[0].status == Pending then 1 else 0)
         + PendingWithId(orders[1..], orderId)
  }

  /** Deciding an id removes from the pending column exactly the pending
      orders with that id. */
  lemma {:induction false} DecideShrinksPending(orders: seq<Order>, orderId: string, status: OrderStatus)
    requires status != Pending
    ensures |PendingOrders(SetStatus(orders, orderId, status))| == |PendingOrders(orders)| - PendingWithId(orders, orderId)
    decreases |orders|
  {
    if |orders| > 0 {
      var after := SetStatus(orders, orderId, status);
      DecideShrinksPending(orders[1..], orderId, status);
      assert after[1..] == SetStatus(orders[1..], orderId, status);
    }
  }

  /** With unique ids, a pending order's id matches exactly one pending
      order. */
  lemma {:induction false} UniquePendingId(orders: seq<Order>, k: nat)
    requires UniqueIds(orders)
    requires k < |orders| && orders[k].status == Pending
    ensures PendingWithId(orders, orders[k].id) == 1
    decreases |orders|
  {
    if k == 0 {
      NoOtherPendingWithId(orders[1..], orders[0].id);
    } else {
      assert orders[1..][k - 1] == orders[k];
      UniquePendingId(orders[1..], k - 1);
    }
  }

  lemma {:induction false} NoOtherPendingWithId(orders: seq<Order>, orderId: string)
    requires forall i :: 0 <= i < |orders| ==> orders[i].id != orderId
    ensures PendingWithId(orders, orderId) == 0
    decreases |orders|
  {
    if |orders| > 0 {
      NoOtherPendingWithId(orders[1..], orderId);
    }
  }

  /** Approving or rejecting a pending order with a unique id shortens the
      pending column by exactly one. */
  lemma DecisionShortensPendingByOne(orders: seq<Order>, k: nat, status: OrderStatus)
    requires UniqueIds(orders)
    requires k < |orders| && orders[k].status == Pending
    requires status != Pending
    ensures |PendingOrders(SetStatus(orders, orders[k].id, status))| == |PendingOrders(orders)| - 1
  {
    DecideShrinksPending(orders, orders[k].id, status);
    UniquePendingId(orders, k);
  }

  /** Orders created at different milliseconds get different ids. */
  lemma OrderIdsDiffer(m: nat, n: nat)
    requires m != n
    ensures OrderId(m) != OrderId(n)
  {
    DecimalDigitsInjective(m, n);
    assert OrderId(m)[6..] == DecimalDigits(m);
    assert OrderId(n)[6..] == DecimalDigits(n);
  }

  /** A customer message keeps order ids unique as long as the new order's
      millisecond is not one an earlier order was created at. */
  lemma SendKeepsIdsUnique(s: AppState, text: string, reply: Reply, sent: Instant, replied: Instant)
    requires UniqueIds(s.orders)
    requires forall i :: 0 <= i < |s.orders| ==> s.orders[i].id != OrderId(replied.millis)
    ensures UniqueIds(HandleSendMessage(s, text, reply, sent, replied).orders)
  {
    var r := HandleSendMessage(s, text, reply, sent, replied);
    assert forall i :: 0 <= i < |s.orders| ==> r.orders[i] == r.orders[..|s.orders|][i];
  }

  /** The short id keeps only the two leading digits of the millisecond
      count: dropping the last digit of a count of three or more digits does
      not change it. */
  lemma ShortIdDropsLastDigit(n: nat)
    requires n >= 100
    ensures ShortId(OrderId(n)) == ShortId(OrderId(n / 10))
  {
    var front := "order-" + DecimalDigits(n / 10);
    assert OrderId(n) == front + [DigitChar(n % 10)];
    assert |front| >= 8;
    assert (front + [DigitChar(n % 10)])[..8] == front[..8];
  }

  /** The short id of an order created at a millisecond count of two or
      more digits is "order-" followed by the count's two leading digits. */
  lemma ShortIdIsLeadingDigits(n: nat)
    requires n >= 10
    ensures ShortId(OrderId(n)) == "order-" + DecimalDigits(n)[..2]
  {
    assert |DecimalDigits(n)| >= 2;
    assert OrderId(n)[..8] == ("order-" + DecimalDigits(n))[..8];
  }

  /** Orders whose millisecond counts share their two leading digits share a
      short id. */
  lemma SameLeadingDigitsSameShortId(m: nat, n: nat)
    requires m >= 10 && n >= 10
    requires DecimalDigits(m)[..2] == DecimalDigits(n)[..2]
    ensures ShortId(OrderId(m)) == ShortId(OrderId(n))
  {
    ShortIdIsLeadingDigits(m);
    ShortIdIsLeadingDigits(n);
  }

  /** Two orders placed at 10m and 10m + 1 milliseconds (m of two or more
      digits) have different ids but the same title on every card and status
      message. Not every consecutive pair does: 199 and 200 give "order-19"
      and "order-20". */
  lemma ShortIdDoesNotIdentifyOrders(m: nat)
    requires m >= 10
    ensures OrderId(10 * m) != OrderId(10 * m + 1)
    ensures ShortId(OrderId(10 * m)) == ShortId(OrderId(10 * m + 1))
  {
    assert (10 * m) / 10 == m && (10 * m + 1) / 10 == m;
    OrderIdsDiffer(10 * m, 10 * m + 1);
    ShortIdDropsLastDigit(10 * m);
    ShortIdDropsLastDigit(10 * m + 1);
  }

  /** Consecutive milliseconds can still give different short ids, when the
      second leading digit changes. */
  lemma ShortIdSplitsAt200()
    ensures ShortId(OrderId(199)) == "order-19" && ShortId(OrderId(200)) == "order-20"
  {
    ShortIdIsLeadingDigits(199);
    ShortIdIsLeadingDigits(200);
  }

  /** The opening message's text equals the seed store's `welcomeMessage`.
      The two are separate literals: nothing in the app reads the welcome
      text from the store. */
  lemma WelcomeMatchesDefaultSettings(loadTime: string)
    ensures InitialBotMessage(loadTime).text == Database.DefaultDatabase().systemSettings.welcomeMessage
  {
  }

  /** The call the assistant makes in the session below. */
  function EspressoCroissantCall(): FunctionCall {
    FunctionCall("place_order", Some([ItemRequest("coffee-001", 2), ItemRequest("pastry-001", 1)]))
  }

  lemma EspressoCroissantCallBuilds()
    ensures CreateOrderFromCall(EspressoCroissantCall()).Success?
    ensures CreateOrderFromCall(EspressoCroissantCall()).value.total == 1000
  {
    EspressoCroissantExample();
  }

  /** A session from the start: the customer confirms two espressos and a
      croissant, the assistant calls `place_order`, and staff approve. The
      order is PENDING at 1000 cents, then APPROVED with no tracking number,
      so the approved status card mentions none. */
  lemma EspressoCroissantSession(loadTime: string, sent: Instant, replied: Instant, decided: Instant)
    ensures
      var s1 := HandleSendMessage(InitialState(loadTime), "I'd like 2 Espresso and 1 Croissant, confirmed",
                                  CallReply(EspressoCroissantCall()), sent, replied);
      && |s1.orders| == 1
      && s1.orders[0].status == Pending && s1.orders[0].total == 1000
      && |s1.messages| == 3 && s1.messages[2].sender == FromSystem
      && var s2 := HandleApproveOrder(s1, s1.orders[0].id, decided);
         && s2.orders[0].status == Approved
         && s2.orders[0].trackingNumber == None
         && OrderStatusUpdate.GetStatusInfo(s2.orders[0]).message == OrderStatusUpdate.ApprovedMessage
  {
    var call := EspressoCroissantCall();
    EspressoCroissantCallBuilds();
    var built := CreateOrderFromCall(call);
    assert PlacesOrder(CallReply(call));
    var s1 := HandleSendMessage(InitialState(loadTime), "I'd like 2 Espresso and 1 Croissant, confirmed",
                                CallReply(call), sent, replied);
    var placed := Order(OrderId(replied.millis), built.value.items, 1000, Pending, replied.isoTime, None);
    assert s1.orders[0] == placed;
    var s2 := HandleApproveOrder(s1, placed.id, decided);
    assert s2.orders[0] == placed.(status := Approved);
  }
}
