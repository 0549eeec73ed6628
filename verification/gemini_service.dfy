/** The assistant adapter and the order builder. The network call itself is
    not modelled: what the SDK produced (or that it threw) is an input. */
module GeminiService {
  import opened Wrappers
  import opened Types
  import opened Constants

  /** One function call the assistant asked for. `items` is `None` when the
      call's arguments carry no item list. */
  datatype FunctionCall = FunctionCall(name: string, items: Option<seq<ItemRequest>>)

  /** What the SDK call produced: it threw, or it answered with a (possibly
      empty) list of function calls and an optional text. */
  datatype SdkOutcome = Threw | Responded(functionCalls: seq<FunctionCall>, text: Option<string>)

  /** The classified reply: exactly one of a function call or a text. */
  datatype Reply = CallReply(call: FunctionCall) | TextReply(text: Option<string>)

  const Apology := "I'm sorry, I'm having a little trouble right now. Please try again later."

  /** The conversation sent to the assistant: the prior history followed by
      one user turn holding the new message. */
  function RequestContents(history: seq<Turn>, userMessage: string): (contents: seq<Turn>)
    ensures |contents| == |history| + 1
    ensures contents[..|history|] == history
    ensures contents[|history|] == Turn(User, userMessage)
  {
    history + [Turn(User, userMessage)]
  }

  /** Reduces an SDK outcome to a reply: the first function call if there is
      any, else the text, and the fixed apology if the call threw. */
  function ClassifyResponse(outcome: SdkOutcome): (r: Reply)
    ensures r.CallReply? <==> outcome.Responded? && |outcome.functionCalls| > 0
    ensures r.CallReply? ==> r.call == outcome.functionCalls[0]
    ensures r.TextReply? && outcome.Responded? ==> r.text == outcome.text
    ensures outcome.Threw? ==> r == TextReply(Some(Apology))
  {
    match outcome
    case Threw => TextReply(Some(Apology))
    case Responded(calls, text) =>
      if |calls| > 0 then CallReply(calls[0]) else TextReply(text)
  }

  /** A function call wins over any text that came with it, and calls after
      the first are dropped. */
  lemma CallIgnoresTextAndLaterCalls(call: FunctionCall, later: seq<FunctionCall>, t1: Option<string>, t2: Option<string>)
    ensures ClassifyResponse(Responded([call] + later, t1)) == ClassifyResponse(Responded([call], t2))
    ensures ClassifyResponse(Responded([call] + later, t1)) == CallReply(call)
  {
  }

  /** The ways building an order can fail: an id that is not on the menu
      (the thrown `Invalid menu item ID: <id>`), or a call whose arguments
      hold no item list (the `TypeError` of mapping over `undefined`). The
      caller only logs the thrown text, so the model keeps just the id. */
  datatype OrderError = InvalidMenuItem(id: string) | MissingItems

  /** The priced lines and total of an order, before it gets an id, a time
      and a status. */
  datatype OrderDraft = OrderDraft(items: seq<OrderItem>, total: int)

  /** Every requested id is on the menu. */
  predicate AllOnMenu(menu: seq<MenuItem>, requests: seq<ItemRequest>) {
    forall i :: 0 <= i < |requests| ==> Find(menu, requests[i].id).Some?
  }

  /** Position `i` holds the first requested id that is not on the menu. */
  predicate FirstMissing(menu: seq<MenuItem>, requests: seq<ItemRequest>, i: nat) {
    && i < |requests|
    && Find(menu, requests[i].id).None?
    && forall j :: 0 <= j < i ==> Find(menu, requests[j].id).Some?
  }

  /** `items` holds, for each request in order, the menu entry with the
      requested id together with the requested quantity. */
  predicate LinesFor(menu: seq<MenuItem>, requests: seq<ItemRequest>, items: seq<OrderItem>) {
    && |items| == |requests|
    && forall i :: 0 <= i < |requests| ==>
         Find(menu, requests[i].id).Some?
         && items[i] == OrderItem(Find(menu, requests[i].id).value, requests[i].quantity)
  }

  /** Prices the requested entries against `menu`, one line per entry in
      request order (repeated ids give repeated lines), failing on the first
      id the menu lacks. Quantities and emptiness are not checked. */
  function BuildOrder(menu: seq<MenuItem>, requests: seq<ItemRequest>): (r: Result<OrderDraft, OrderError>)
    ensures r.Success? <==> AllOnMenu(menu, requests)
    ensures r.Success? ==> LinesFor(menu, requests, r.value.items) && r.value.total == LinesTotal(r.value.items)
    ensures r.Failure? ==>
      exists i: nat :: FirstMissing(menu, requests, i) && r.error == InvalidMenuItem(requests[i].id)
    decreases |requests|
  {
    if |requests| == 0 then Success(OrderDraft([], 0))
    else
      match Find(menu, requests[0].id)
      case None =>
        assert FirstMissing(menu, requests, 0);
        Failure(InvalidMenuItem(requests[0].id))
      case Some(m) =>
        match BuildOrder(menu, requests[1..])
        case Failure(e) =>
          MissingShifts(menu, requests, e);
          Failure(e)
        case Success(d) =>
          var line := OrderItem(m, requests[0].quantity);
          LinesTotalCons(line, d.items);
          LinesForCons(menu, requests, m, d.items);
          Success(OrderDraft([line] + d.items, Subtotal(line) + d.total))
  }

  /** The first missing id of the tail, shifted by one, is the first missing
      id of the whole request when its head is on the menu. */
  lemma MissingShifts(menu: seq<MenuItem>, requests: seq<ItemRequest>, e: OrderError)
    requires |requests| > 0 && Find(menu, requests[0].id).Some?
    requires exists k: nat :: FirstMissing(menu, requests[1..], k) && e == InvalidMenuItem(requests[1..][k].id)
    ensures exists i: nat :: FirstMissing(menu, requests, i) && e == InvalidMenuItem(requests[i].id)
    ensures !AllOnMenu(menu, requests)
  {
  }

  /** Pricing the head in front of the tail's lines prices the whole
      request. */
  lemma LinesForCons(menu: seq<MenuItem>, requests: seq<ItemRequest>, m: MenuItem, tail: seq<OrderItem>)
    requires |requests| > 0 && Find(menu, requests[0].id) == Some(m)
    requires LinesFor(menu, requests[1..], tail)
    ensures LinesFor(menu, requests, [OrderItem(m, requests[0].quantity)] + tail)
    ensures AllOnMenu(menu, requests)
  {
  }

  /** `createOrderFromFunctionCall` applied to a call's arguments, against the
      fixed menu. */
  function CreateOrderFromCall(call: FunctionCall): (r: Result<OrderDraft, OrderError>)
    ensures call.items.None? ==> r == Failure(MissingItems)
    ensures call.items.Some? ==> r == BuildOrder(MenuItems(), call.items.value)
  {
    match call.items
    case None => Failure(MissingItems)
    case Some(items) => BuildOrder(MenuItems(), items)
  }

  /** An empty request is accepted: no lines, total 0. */
  lemma EmptyRequestBuildsEmptyOrder(menu: seq<MenuItem>)
    ensures BuildOrder(menu, []) == Success(OrderDraft([], 0))
  {
  }

  /** Two espressos and a croissant price to 1000 cents. */
  lemma EspressoCroissantExample()
    ensures
      var r := BuildOrder(MenuItems(), [ItemRequest("coffee-001", 2), ItemRequest("pastry-001", 1)]);
      r.Success? && |r.value.items| == 2 && r.value.total == 1000
      && r.value.items[0] == OrderItem(MenuItems()[0], 2)
      && r.value.items[1] == OrderItem(MenuItems()[2], 1)
  {
  }

  /** Repeated ids are priced as separate lines, never merged. */
  lemma RepeatedIdsStaySeparate(menu: seq<MenuItem>, req: ItemRequest)
    requires Find(menu, req.id).Some?
    ensures
      var r := BuildOrder(menu, [req, req]);
      r.Success? && |r.value.items| == 2 && r.value.items[0] == r.value.items[1]
  {
    assert AllOnMenu(menu, [req, req]);
  }

  /** One unknown id anywhere fails the whole request, so no partial order
      is produced. */
  lemma UnknownIdFailsWholeOrder(menu: seq<MenuItem>, requests: seq<ItemRequest>, i: nat)
    requires i < |requests|
    requires Find(menu, requests[i].id).None?
    ensures BuildOrder(menu, requests).Failure?
  {
  }
}
