# Stanley's Cafe order pipeline, in Dafny

This project models the order-intake and order-lifecycle logic of the Stanley's
Cafe ordering app, without React and without the Gemini SDK:

- **Catalog** (`Constants`): the fixed five-item menu, with prices as integer
  cents (3.50 is 350), and the `find`-by-id lookup.
- **Order builder** (`GeminiService.BuildOrder`): turns the `(id, quantity)`
  pairs of a `place_order` call into priced lines and a total. It fails on the
  first id the menu lacks.
- **Reply classifier** (`GeminiService.ClassifyResponse`): reduces what the SDK
  returned, or the fact that it threw, to a two-case reply. The reply is either
  the first function call or a text. A throw becomes the fixed apology text.
- **Conversation step** (`App.HandleSendMessage`): from the prior state, the
  user's text and the classified reply, it produces the new transcript, the
  new chat history and possibly one new PENDING order.
- **Status step** (`App.UpdateOrderStatus`, `HandleApproveOrder`,
  `HandleRejectOrder`): sets the status of the orders with a given id and
  posts a SYSTEM message.
- **Derived views**: the dashboard's pending and processed columns and its
  pending-only buttons (`AdminDashboard`). The customer status card
  (`OrderStatusUpdate`). The seed store and the schema merge done on load
  (`Database`).
- **Lifecycle** (`Lifecycle`): properties that span components. These are the
  pricing invariant, the effect of the pending-only buttons on status changes,
  order-id uniqueness, and what the eight-character short id can and cannot
  tell apart.

Every operation is a pure function over immutable datatypes. Clock readings
(`Date.now()`, `toISOString()`, `toLocaleTimeString()`) are `Instant`
parameters. The SDK's answer is an `SdkOutcome` parameter. What reading and
parsing the stored store produced is an `Option<StoredDatabase>` parameter.

Files: `wrappers.dfy` (Option, Result), `text.dfy` (JavaScript `slice`,
`includes` and number interpolation over `seq<char>`), `types.dfy`,
`constants.dfy`, `gemini_service.dfy`, `app.dfy`, `collections.dfy`
(`Array.prototype.filter`), `admin_dashboard.dfy`, `order_status_update.dfy`,
`database.dfy`, `lifecycle.dfy`.

## Checks the code does not make

The code makes none of the following checks; the model follows the code.

- The builder does not reject an empty item list, and it does not reject a
  zero, negative or fractional quantity. `BuildOrder([])` succeeds with no
  lines and total 0.
- `updateOrderStatus` has no PENDING guard. Only the dashboard, which shows
  the buttons on pending orders alone, keeps decided orders decided, and only
  while order ids are unique. This is proved in
  `Lifecycle.OfferedButtonsOnlyDecidePending`. `Lifecycle.SendKeepsIdsUnique`
  shows that ids stay unique when a new order's millisecond is unused. Ids
  are `order-<milliseconds>`, and the chat does not block a second message
  while a reply is pending, so two replies landing in the same millisecond
  can give two orders one id. Then a pending card's Reject also rejects the
  approved twin (`Lifecycle.SharedIdLetsRejectOverwriteApproval`). The
  unguarded overwrite itself is shown in `Lifecycle.RejectOverwritesApproval`.
- Approval takes no tracking number. `Order` is declared without
  `trackingNumber`, yet the status card reads one. The model keeps it as an
  optional field that no operation ever sets.
- Neither dashboard column is sorted. Both keep the store's order.
- Orders come only from `place_order` calls: staff have no way to enter one.

## Model

| member | source | states |
|---|---|---|
| Constants.MenuItems | constants.ts:4-40 | the menu has five entries with pairwise distinct ids and positive prices: Espresso (coffee-001) 350, Cappuccino (coffee-002) 450, Croissant (pastry-001) 300, Chicken Club (sandwich-001) 850 and Caesar Salad (salad-001) 700 cents, in that order |
| Constants.Find | services/geminiService.ts:97 | the lookup returns the first entry with the requested id; it returns nothing exactly when no entry has that id |
| Constants.FindDistinct | constants.ts:4-40 | when ids are distinct, looking up an entry's id returns that entry, so the lookup returns at most one item |
| Constants.InitialBotMessage | constants.ts:42-47 | the transcript starts with a BOT message whose id is 1 and whose text is the welcome text |
| Text.Take | App.tsx:49 | `slice(0, n)` returns a prefix of length n, or the whole string when the string is shorter |
| Text.ParseDecimalDigits | App.tsx:44 | reading back the decimal digits interpolated into an order id returns the original millisecond count |
| Text.DecimalDigitsInjective | App.tsx:44 | different millisecond counts interpolate to different digit strings |
| GeminiService.RequestContents | services/geminiService.ts:68 | the assistant is sent the prior history, then exactly one user turn with the new message |
| GeminiService.ClassifyResponse | services/geminiService.ts:64-92 | the reply is a call exactly when the SDK answered with at least one function call, and then it carries the first call; otherwise it is the SDK's text, and a throw becomes the fixed apology |
| GeminiService.CallIgnoresTextAndLaterCalls | services/geminiService.ts:75-84 | once a call is present, any text and any later calls have no effect on the reply |
| GeminiService.BuildOrder | services/geminiService.ts:94-106 | building succeeds exactly when every requested id is on the menu; it then gives one line per request in request order (the menu entry plus the quantity) and a total equal to the sum of price × quantity; otherwise the error names the first id that is not on the menu |
| GeminiService.CreateOrderFromCall | services/geminiService.ts:94-97 | a call whose arguments hold no item list fails; any other call is built against the fixed menu |
| GeminiService.EmptyRequestBuildsEmptyOrder | services/geminiService.ts:94-106 | an empty request is accepted with no lines and a total of 0 |
| GeminiService.RepeatedIdsStaySeparate | services/geminiService.ts:96-103 | two requests for the same id give two separate, equal lines that are not merged |
| GeminiService.UnknownIdFailsWholeOrder | services/geminiService.ts:97-100 | one unknown id anywhere in the request fails the whole build, so no partial order is produced |
| GeminiService.EspressoCroissantExample | services/geminiService.ts:101 | 2 × coffee-001 and 1 × pastry-001 price to 1000 cents, as two lines in request order |
| Types.LinesTotalCons | services/geminiService.ts:95-101 | a running total computed from first line to last equals the head line's subtotal plus the rest's total |
| Types.LineRows | components/AdminDashboard.tsx:40-45 | an order card shows one row per line, in line order, with the line's quantity, name and price × quantity |
| App.InitialState | App.tsx:11-14 | the app starts with the welcome message as its only message, no orders and an empty chat history |
| App.AddMessage | App.tsx:16-26 | `addMessage` appends exactly one message, with the given text and sender, the clock's millisecond count as its id and the local time as its timestamp, and keeps the earlier messages |
| App.OrderId | App.tsx:44 | an order id is "order-" followed by the decimal digits of the creation millisecond, and those digits read back to that millisecond |
| App.CallEffect | App.tsx:38-57 | a `place_order` call that builds adds one PENDING order carrying the builder's items and total, a model note and a SYSTEM message; one that fails adds no order but adds the error note and a BOT error message; a call with any other name adds nothing |
| App.TextEffect | App.tsx:58-61 | a non-empty text is appended verbatim both as a model turn and as a BOT message; an absent or empty text adds nothing |
| App.EffectOf | App.tsx:38-61 | the reply adds as many model turns as transcript messages, at most one of each, and adds one exactly for a `place_order` call or a shown text; an order is added exactly when a `place_order` call builds |
| App.HandleSendMessage | App.tsx:28-65 | the user message and the user turn come first. The history then starts with exactly what the assistant was sent and grows by at most one model turn. Earlier orders are untouched and at most one is added. The placed, failed and text branches append the messages, turns and order stated |
| App.SetStatus | App.tsx:68-70 | the list keeps its length; orders with other ids are unchanged, and matching orders change only their status |
| App.UpdateOrderStatus | App.tsx:67-72 | the new status is set on every order with the id, whatever its current status; the chat history is unchanged; exactly one SYSTEM message with the given text is appended |
| App.HandleApproveOrder | App.tsx:74-76 | approval sets APPROVED on the orders with the id and appends exactly one SYSTEM message containing the first 8 characters of the id |
| App.HandleRejectOrder | App.tsx:78-80 | rejection sets REJECTED on the orders with the id and appends exactly one SYSTEM message containing the first 8 characters of the id |
| Collections.FilterSplitsMultiset | components/AdminDashboard.tsx:14-15 | filtering by a predicate and by its negation places every element, with its multiplicity, in exactly one of the two results |
| Collections.FilterKeepsOrder | components/AdminDashboard.tsx:14-15 | a filtered list is a subsequence of the original, taken at strictly increasing positions |
| AdminDashboard.PendingOrders | components/AdminDashboard.tsx:14 | the pending column holds exactly the orders whose status is PENDING |
| AdminDashboard.ProcessedOrders | components/AdminDashboard.tsx:15 | the history column holds exactly the orders whose status is not PENDING |
| AdminDashboard.ColumnsPartitionOrders | components/AdminDashboard.tsx:14-15 | every order, counted with its multiplicity, is in exactly one of the two columns, and the column sizes add up to the number of orders |
| AdminDashboard.ColumnsKeepStoreOrder | components/AdminDashboard.tsx:14-15 | each column keeps the store's relative order and does no sorting |
| AdminDashboard.CardOf | components/AdminDashboard.tsx:17-69 | Reject and Approve are offered exactly when the order is PENDING. The title is exactly "Order #" followed by the first 8 characters of the id. The rows are the order's lines in order, each showing quantity, item name and price × quantity, and the total shown is the stored total |
| AdminDashboard.DashboardOf | components/AdminDashboard.tsx:76-95 | card k of the pending section shows the k-th order of the pending column, and card k of the history section the k-th processed order; so each pending card offers both buttons and no processed card offers any |
| OrderStatusUpdate.GetStatusInfo | components/OrderStatusUpdate.tsx:7-36 | each title is "Order #", the first 8 characters of the id, and then "Placed", "Approved!" or "Rejected"; the PENDING and REJECTED messages are fixed; the APPROVED message ends with " Tracking: " and the number exactly when a non-empty tracking number is present |
| OrderStatusUpdate.StatusInfoIgnoresContents | components/OrderStatusUpdate.tsx:12-29 | the title and message depend only on the id, the status and the tracking number, never on the lines or the total |
| OrderStatusUpdate.StatusCardOf | components/OrderStatusUpdate.tsx:49-63 | the card shows the stored total and one price × quantity row per line |
| Database.DefaultDatabase | services/database.ts:28-53 | the seed has no orders and no payroll history, two users, two agents, two employees and three vendors, and non-empty settings |
| Database.MergeSettings | services/database.ts:67 | each settings field is taken from the stored settings when present and from the defaults when missing |
| Database.LoadDatabase | services/database.ts:56-74 | with nothing usable stored, the default database is loaded. Otherwise each stored top-level field replaces the default wholesale and each missing field is back-filled. Only the settings are merged a level deeper |
| Database.LoadStoredRoundTrip | services/database.ts:61-68 | loading a stored copy that has every top-level and settings field returns it unchanged |
| Database.LoadEmptyBlobIsDefault | services/database.ts:63-67 | a stored object with no fields loads as the default database |
| Database.LoadBackfillsMissingSetting | services/database.ts:67 | a settings field missing from storage is back-filled from the seed while the stored ones survive |
| Lifecycle.SendKeepsPricing | App.tsx:41-48 | a customer message keeps every stored total equal to the sum of its lines |
| Lifecycle.SetStatusKeepsPricing | App.tsx:68-70 | a status change keeps every stored total equal to the sum of its lines |
| Lifecycle.Press | components/AdminDashboard.tsx:54-65 | pressing Approve or Reject on a card sets APPROVED or REJECTED on the orders with that id, leaves every other order and the chat history unchanged, and appends one SYSTEM message containing the first 8 characters of the id |
| Lifecycle.OfferedButtonsOnlyDecidePending | components/AdminDashboard.tsx:52-67 | when ids are unique, a button the dashboard offers decides exactly its own order, which was PENDING, and leaves all other orders unchanged, so through the UI a status only ever leaves PENDING |
| Lifecycle.SharedIdLetsRejectOverwriteApproval | App.tsx:44 | when an APPROVED and a PENDING order share an id, the Reject button offered on the pending card also makes the approved order REJECTED |
| Lifecycle.RejectOverwritesApproval | App.tsx:67-70 | `updateOrderStatus` has no guard: rejecting an APPROVED order makes it REJECTED |
| Lifecycle.DecideShrinksPending | App.tsx:67-70 | deciding an id removes exactly the pending orders with that id from the pending column |
| Lifecycle.DecisionShortensPendingByOne | components/AdminDashboard.tsx:14 | when ids are unique, deciding a pending order shortens the pending column by exactly one |
| Lifecycle.OrderIdsDiffer | App.tsx:44 | orders created in different milliseconds get different ids |
| Lifecycle.SendKeepsIdsUnique | App.tsx:44-48 | a customer message keeps order ids unique when no earlier order was created in the same millisecond |
| Lifecycle.ShortIdDropsLastDigit | App.tsx:49 | for a millisecond count of three or more digits, dropping its last digit leaves the 8-character short id unchanged |
| Lifecycle.ShortIdIsLeadingDigits | App.tsx:49 | for a millisecond count of two or more digits, the short id is "order-" followed by the count's two leading digits |
| Lifecycle.SameLeadingDigitsSameShortId | components/OrderStatusUpdate.tsx:12 | orders whose millisecond counts share their two leading digits share a short id, and so a title |
| Lifecycle.ShortIdDoesNotIdentifyOrders | components/OrderStatusUpdate.tsx:12 | orders placed at 10m and 10m + 1 milliseconds (m of two or more digits) have different ids but the same short id, so they show the same title; not every consecutive pair does (199 and 200 differ) |
| Lifecycle.ShortIdSplitsAt200 | App.tsx:44-49 | the orders of milliseconds 199 and 200 get the short ids "order-19" and "order-20", so consecutive orders do not always share one |
| Lifecycle.WelcomeMatchesDefaultSettings | services/database.ts:36 | the opening message's text equals the seed store's `welcomeMessage` literal; the two are separate literals and the app never reads the welcome text from the store |
| Lifecycle.EspressoCroissantSession | App.tsx:28-80 | from the initial state, a confirmed 2 × espresso + 1 × croissant order becomes one PENDING order of 1000 cents with a SYSTEM message, and approving it gives APPROVED with no tracking number |

## Left out

- The React rendering, JSX, CSS, scrolling, the typing indicator and the
  trimming of the chat input: these are presentation only. Icons and colours
  of the status card are left out for the same reason.
- The Gemini client, the API-key check, the function declaration and the
  system prompt: these belong to an external network service. Its result is
  the `SdkOutcome` input.
- `localStorage`, `JSON.parse`, `JSON.stringify` and `saveDatabase`: these
  are I/O. The parse result is an input, and saving is not modelled.
- Floating-point money and `toFixed(2)`: prices and totals are integer cents,
  so sums are exact.
- `Date.now()`, `toISOString()`, `toLocaleTimeString()` and
  `toLocaleString()`: these are clock readings and locale formatting. They are
  `Instant` parameters, or they are dropped from the cards.
- `async`/`await`, React state batching and the `chatHistory` closure that
  `useCallback` captures: these are framework and concurrency semantics. The
  model takes the history as it stood when the message was sent.
- HandleSendMessage: every clock reading after the assistant answers is one
  `Instant`, so the new order's id and the message after it share a
  millisecond. The source reads the clock separately for each.
- ClassifyResponse: an absent `functionCalls` list is treated as empty. The
  SDK's own failures are reduced to a single "threw" outcome.
- CreateOrderFromCall: a call whose arguments hold no item list fails like an
  unknown id. In the source this is a `TypeError` caught by the same `catch`.
  An entry without an `id` or `quantity` is not modelled.
- BuildOrder: quantities are integers. A fractional or missing quantity, which
  JSON could carry and which would make the floating-point total fractional
  or `NaN`, is not modelled.
- LoadDatabase: the stored copy is a typed record whose fields are present or
  missing. Stored values of the wrong type, `null` fields, extra keys and a
  stored JSON array are not modelled. A stored `null` makes reading
  `systemSettings` throw, so it falls under "nothing usable stored".
- Take: Dafny characters are Unicode scalar values, while JavaScript's
  `slice` counts UTF-16 code units. The two agree on the ASCII ids the app
  creates.
- The shapes of users, delivery agents, employees, payroll records and vendors
  come from the seed literal, because the type declarations are not part of
  this model. Payroll records have no seed entry, so they are kept as an
  opaque record with an id.
