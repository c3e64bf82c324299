# Moc Vien coffee shop: the ordering core, modelled in Dafny

Moc Vien is a coffee-shop point of sale. A cashier page takes orders at the
counter, and a chat assistant takes them from customers. This project models
the deterministic core of both, and of the business rules around them:

- **Intent classification** (`intent.dfy`, `fold.dfy`). The Vietnamese
  diacritic fold, then a fixed-priority, first-match chain of keyword tests
  that yields one of nine order intents.
- **Fuzzy product matching** (`matching.dfy`, `edit_distance.dfy`,
  `similarity.dfy`). A space-free fold, containment in either direction, and
  a Levenshtein similarity above 0.7. The distance is a dynamic-programming
  table method, proved equal to the recursive definition. The threshold is
  proved to be the integer test `10 d < 3 maxLen`.
- **Order extraction** (`extraction.dfy`, `scanner.dfy`,
  `extraction_example.dfy`). The two regular expressions are matched by a
  hand-written scanner that backtracks in java.util.regex's order. The
  two-pass loop then resolves each span against the menu.
- **The chat session store** (`cart.dfy`, `session.dfy`, `conversation.dfy`).
  Cart items and session states are classes whose setters change fields in
  place. The store is a map from session id to state. It merges lines by
  product id, removes lines by name ignoring case, copies the cart on read,
  sums it, clears it and sweeps expired sessions.
- **The two chat services** (`ai_order.dfy`, `tools.dfy`, `agent.dfy`). The
  intent-driven service dispatches to its handlers. The agent service routes
  by keyword to the cart tools, extracts quantities and item names, and
  confirms orders.
- **The surrounding services**:
  - order creation with prices, surcharge and loyalty points (`orders.dfy`);
  - the table status state machine (`tables.dfy`);
  - the product search and its index sync (`products.dfy`);
  - staff accounts and role normalisation (`users.dfy`);
  - the dashboard's revenue buckets (`dashboard.dfy`).
- **The cashier page's cart** (`pos_cart.dfy`): merge rule, +/- buttons, the
  item modal, price override, totals, "notify kitchen" and checkout.

Some collaborators become parameters:

- the clock (`now`, `today`);
- fresh ids (session ids, database ids);
- the language model's text;
- the vector search results;
- whether an index call or a pending-order save succeeded;
- the order-placement outcome.

Money is `real`. Times are whole seconds for the session store and minutes
for the dashboard. Where the source treats a null string and a blank one
alike, null is modelled as the empty string; other nullable fields are
`Option`s.

`wrappers.dfy`, `ints.dfy`, `text.dfy`, `lists.dfy` and `catalog.dfy` hold
shared definitions:

- `Option` and `Result`;
- Java's `int` range and its wrapping addition;
- Java's `toLowerCase`, `toUpperCase`, `trim`, `isBlank`, `contains` and
  `equalsIgnoreCase` on the characters the shop uses;
- filters and subsequences;
- the menu's `Product`.

The order request follows `OrderService.createOrder`, not the record
declared in `dto/OrderRequest.java`. The service reads the customer id, name
and phone number, which that record does not declare, and the chat service
builds it with twelve arguments. The datatype here has exactly the fields
`createOrder` reads.

## Model

| member | source | states |
|---|---|---|
| Agent.DetectIntentFromResponse | src/main/java/hoavinh/mocvien_coffee/ai_engine/service/AiOrderAgentService.java:233-250 | the intent read back from a reply is one of add, view cart, remove, ask menu or unknown; view cart only while the cart is empty and the lower-cased reply contains "giỏ hàng"; unknown only when it contains neither "menu" nor "món" |
| Agent.AddedTextIntent | src/main/java/hoavinh/mocvien_coffee/ai_engine/service/AiOrderAgentService.java:233-237 | a turn that passes on addToCart's success text ("✅ Em đã thêm …") reads as ADD_TO_CART, whatever the quantity, name and price in it |
| Agent.EmptyCartTextIntent | src/main/java/hoavinh/mocvien_coffee/ai_engine/service/AiOrderAgentService.java:233-249 | viewCart's empty-cart text reads as VIEW_CART when the cart is empty, and as ASK_MENU when the cart only sums to zero |
| Agent.RemovedTextIntent | src/main/java/hoavinh/mocvien_coffee/ai_engine/service/AiOrderAgentService.java:233-243 | removeFromCart's success text reads as REMOVE_FROM_CART while lines are left, and as VIEW_CART once the cart is empty, because it says "giỏ hàng"; the removed names must not hold an 'ê' |
| Agent.RoutingIgnoresCase | src/main/java/hoavinh/mocvien_coffee/ai_engine/service/AiOrderAgentService.java:82-99 | the tool routing and the confirmation test read only the lower-cased message, so upper-casing the message changes neither |
| Agent.AddRouteHasNumber | src/main/java/hoavinh/mocvien_coffee/ai_engine/service/AiOrderAgentService.java:84-98 | a message routed to addToCart holds a digit and mentions neither "cart" nor "xóa" nor "bỏ", because those branches are checked first |
| Agent.ExtractQuantity | src/main/java/hoavinh/mocvien_coffee/ai_engine/service/AiOrderAgentService.java:327-338 | a message without a digit gives quantity 1; the quantity always lies between 0 and the largest int |
| Agent.ExtractQuantityIsFirstRun | src/main/java/hoavinh/mocvien_coffee/ai_engine/service/AiOrderAgentService.java:327-338 | the quantity is the value of the first maximal digit run when it fits an int, and 1 when parseInt overflows |
| Agent.Words | src/main/java/hoavinh/mocvien_coffee/ai_engine/service/AiOrderAgentService.java:308 | split on runs of regex whitespace: every piece is non-empty, free of whitespace and made of the message's characters |
| Agent.KeptWordsSpec | src/main/java/hoavinh/mocvien_coffee/ai_engine/service/AiOrderAgentService.java:311-320 | a word is appended to the item name exactly when it is not all digits, is not one of the stop words "cho", "tôi", "đặt", "muốn" (any case), and some all-digit word comes before it |
| Agent.NothingKeptWithoutNumber | src/main/java/hoavinh/mocvien_coffee/ai_engine/service/AiOrderAgentService.java:311-320 | without an all-digit word the loop appends nothing |
| Agent.NoNumberNoName | src/main/java/hoavinh/mocvien_coffee/ai_engine/service/AiOrderAgentService.java:306-322 | a message with no digit yields the empty item name |
| Agent.ExtractItemName | src/main/java/hoavinh/mocvien_coffee/ai_engine/service/AiOrderAgentService.java:306-322 | the split, the loop and the final trim return exactly the item name the kept-words definition describes |
| Agent.BuildItemName | src/main/java/hoavinh/mocvien_coffee/ai_engine/service/AiOrderAgentService.java:311-320 | the builder holds each kept word followed by one space, in message order |
| Agent.ToolReplyFor | src/main/java/hoavinh/mocvien_coffee/ai_engine/service/AiOrderAgentService.java:84-122 | a turn gets a tool reply on every route except the free-chat one, which is answered by the language model |
| Agent.CartAfterToolSpec | src/main/java/hoavinh/mocvien_coffee/ai_engine/service/AiOrderAgentService.java:84-122 | only the add and remove routes change the cart, and a turn keeps every line priced |
| Agent.BlankSessionTurn | src/main/java/hoavinh/mocvien_coffee/ai_engine/service/AiOrderAgentService.java:84-98 | with a null or blank session id no route changes any cart, the reply does not depend on the cart, and the cart tools answer with the session error or ask for the item |
| Agent.RemoveNeedsNumber | src/main/java/hoavinh/mocvien_coffee/ai_engine/service/AiOrderAgentService.java:87-91 | a remove message without a digit never removes: the item name is empty, so the tool asks for the item and the cart is unchanged |
| Agent.AddTurnMergesOneLine | src/main/java/hoavinh/mocvien_coffee/ai_engine/service/AiOrderAgentService.java:92-98 | an add turn that reports a line merged exactly that line: the top search hit for the item name, priced at the product's price, with the message's quantity or 1 when it is not positive |
| Agent.AiOrderAgentService.constructor | src/main/java/hoavinh/mocvien_coffee/ai_engine/service/AiOrderAgentService.java:36-57 | the service holds the conversation store and the tools that share it |
| Agent.AiOrderAgentService.RunTool | src/main/java/hoavinh/mocvien_coffee/ai_engine/service/AiOrderAgentService.java:84-122 | the reply is the routed tool's outcome on the cart as the turn found it, the text is that reply rendered or the model's answer, and the session's new cart is what that tool makes of it; nothing changes without a session id or on a route that does not edit the cart |
| Agent.AiOrderAgentService.RunRemove | src/main/java/hoavinh/mocvien_coffee/ai_engine/service/AiOrderAgentService.java:87-91 | the remove branch's outcome and new cart are removeFromCart's on the item name cut from the message; when it removes, every other session keeps its cart and table, and otherwise no session object changes |
| Agent.AiOrderAgentService.RunAdd | src/main/java/hoavinh/mocvien_coffee/ai_engine/service/AiOrderAgentService.java:92-98 | the add branch's outcome and new cart are addToCart's on the item name and quantity cut from the message |
| Agent.AiOrderAgentService.Conclude | src/main/java/hoavinh/mocvien_coffee/ai_engine/service/AiOrderAgentService.java:124-133 | a confirming message goes to handleConfirmOrder: the order is sent exactly when the cart is non-empty, a placed order removes the session, a failed one keeps the cart; any other message answers with the text, the intent read back from it, the cart's lines and total |
| Agent.AiOrderAgentService.Turn | src/main/java/hoavinh/mocvien_coffee/ai_engine/service/AiOrderAgentService.java:76-133 | the tool runs first and the confirmation then places the cart the tool left, with the session's table number |
| Agent.AiOrderAgentService.ToolStep | src/main/java/hoavinh/mocvien_coffee/ai_engine/service/AiOrderAgentService.java:79-122 | the tool call seen from the session's state: the reply and the new cart as the routing defines them, and the table number unchanged |
| Agent.AiOrderAgentService.ProcessCustomerMessage | src/main/java/hoavinh/mocvien_coffee/ai_engine/service/AiOrderAgentService.java:63-134 | the whole turn: the routed tool's reply and cart, then either the placed order (session removed), the failure (cart kept), "nothing to confirm" for an empty cart, or the response built from the text |
| AiOrder.Dtos | src/main/java/hoavinh/mocvien_coffee/ai_engine/service/AiOrderService.java:399-407 | the response lists one entry per cart line, in order, with the line's product id, product name, quantity, price snapshot and note |
| AiOrder.ValidateSpec | src/main/java/hoavinh/mocvien_coffee/ai_engine/service/AiOrderService.java:356-372 | validation passes exactly for a non-empty list whose every line has an available product and a positive quantity; an empty list is refused as "nothing to add"; any other refusal is the one for the first failing line |
| AiOrder.FirstInvalidSpec | src/main/java/hoavinh/mocvien_coffee/ai_engine/service/AiOrderService.java:361-369 | the loop finds no refusal exactly when every line is acceptable, and otherwise returns the refusal of the first line that is not |
| AiOrder.ValidateCartItems | src/main/java/hoavinh/mocvien_coffee/ai_engine/service/AiOrderService.java:356-372 | the validation loop over the cart objects returns exactly the refusal the validation definition gives for their lines |
| AiOrder.MentionedNamesSpec | src/main/java/hoavinh/mocvien_coffee/ai_engine/service/AiOrderService.java:377-388 | a product name is extracted exactly when some cart line carries it and the lower-cased message contains the lower-cased name |
| AiOrder.RemoveMentioned | src/main/java/hoavinh/mocvien_coffee/ai_engine/service/AiOrderService.java:212-227 | removing the extracted names keeps exactly the cart lines whose product name the message does not mention |
| AiOrder.ExtractProductNamesFromMessage | src/main/java/hoavinh/mocvien_coffee/ai_engine/service/AiOrderService.java:377-388 | the loop over the session's cart objects returns exactly the mentioned names, in cart order |
| AiOrder.LinesOf | src/main/java/hoavinh/mocvien_coffee/ai_engine/service/AiOrderService.java:168-175 | one cart line per extracted item, in order, each priced at its product's current price |
| AiOrder.ToCartItems | src/main/java/hoavinh/mocvien_coffee/ai_engine/service/AiOrderService.java:168-175 | the conversion creates one new, distinct cart object per extracted item holding exactly those lines |
| AiOrder.ConfirmRequest | src/main/java/hoavinh/mocvien_coffee/ai_engine/service/AiOrderService.java:251-276 | the order request carries one item per cart line with its product id, quantity, price snapshot and note, the session's table number or "Takeout", and no table id, customer, total or surcharge |
| AiOrder.ConfirmedOrderTotal | src/main/java/hoavinh/mocvien_coffee/ai_engine/service/AiOrderService.java:263-283 | an order placed from a priced cart whose products the catalog knows is priced without error and costs exactly the cart total |
| AiOrder.DerivedTotalIsTotal | src/main/java/hoavinh/mocvien_coffee/ai_engine/service/AiOrderService.java:251-258 | items that keep each line's price and quantity add up to the cart total |
| AiOrder.AddStepFor | src/main/java/hoavinh/mocvien_coffee/ai_engine/service/AiOrderService.java:154-181 | handleAddToCart asks again exactly when nothing is extracted, merges only lines that pass validation, and otherwise refuses with the validation's message |
| AiOrder.PrepareAdd | src/main/java/hoavinh/mocvien_coffee/ai_engine/service/AiOrderService.java:156-181 | extraction, conversion and validation give the step the add definition describes, with new cart objects holding its lines |
| AiOrder.BuildResponse | src/main/java/hoavinh/mocvien_coffee/ai_engine/service/AiOrderService.java:393-419 | the response carries the state object's lines, the store's total for the state's id, the given message and intent, no order id and no confirmation request |
| AiOrder.ResponseIsConsistent | src/main/java/hoavinh/mocvien_coffee/ai_engine/service/AiOrderService.java:393-419 | for the state the store holds, the listed lines are exactly the lines whose total the response reports |
| AiOrder.OpenSession | src/main/java/hoavinh/mocvien_coffee/ai_engine/service/AiOrderService.java:72 | getOrCreateConversation returns the state stored under the id, or a new empty one stored under it (under a generated id when the id is blank), and replaces no other session |
| AiOrder.SetTable | src/main/java/hoavinh/mocvien_coffee/ai_engine/service/AiOrderService.java:73-76 | the state's table number is the given one afterwards; the store's setter works on the raw id, so a blank id leaves a second new session holding the table; no cart changes |
| AiOrder.OpenTurn | src/main/java/hoavinh/mocvien_coffee/ai_engine/service/AiOrderService.java:71-76 | the turn's session is the id's own (or a new one under a generated id), its cart is as stored, and its table number is the request's when that is non-blank, otherwise the stored one |
| AiOrder.PlaceOrder | src/main/java/hoavinh/mocvien_coffee/ai_engine/service/AiOrderService.java:242-309 | an empty cart sends nothing and answers "nothing to confirm"; otherwise the request for the cart and table is sent; a placed order forgets the session and answers with the order's id and total and no lines; a failure keeps the session and answers with the cart total |
| AiOrder.AiOrderService.constructor | src/main/java/hoavinh/mocvien_coffee/ai_engine/service/AiOrderService.java:37-57 | the service works on the given conversation store |
| AiOrder.AiOrderService.HandleGreeting | src/main/java/hoavinh/mocvien_coffee/ai_engine/service/AiOrderService.java:111-117 | the welcome reply, with the greeting intent and the session's cart |
| AiOrder.AiOrderService.HandleViewCart | src/main/java/hoavinh/mocvien_coffee/ai_engine/service/AiOrderService.java:202-207 | the reply shows the store's cart summary, which is the empty-cart message exactly when the session's cart is empty |
| AiOrder.AiOrderService.HandleUpdateQuantity | src/main/java/hoavinh/mocvien_coffee/ai_engine/service/AiOrderService.java:232-237 | quantity updates are not supported: the reply says so and changes nothing |
| AiOrder.AiOrderService.Answer | src/main/java/hoavinh/mocvien_coffee/ai_engine/service/AiOrderService.java:122-149 | menu questions (and unrecognised messages) are answered with the generated text, without cart lines or total |
| AiOrder.AiOrderService.HandleAddToCart | src/main/java/hoavinh/mocvien_coffee/ai_engine/service/AiOrderService.java:154-197 | a validated list is merged into the session's cart, line by line, and the activity time is stamped; with nothing extracted or a refusal the cart and every session object stay unchanged |
| AiOrder.AiOrderService.HandleRemoveFromCart | src/main/java/hoavinh/mocvien_coffee/ai_engine/service/AiOrderService.java:212-227 | with no mentioned name the reply asks again and nothing changes; otherwise every line carrying a mentioned name is removed, the activity time is stamped, and every other session keeps its cart and table |
| AiOrder.AiOrderService.HandleCancel | src/main/java/hoavinh/mocvien_coffee/ai_engine/service/AiOrderService.java:314-318 | the session is forgotten; the reply still lists the state's lines but reports a total of 0 |
| AiOrder.AiOrderService.HandleIntent | src/main/java/hoavinh/mocvien_coffee/ai_engine/service/AiOrderService.java:88-106 | each intent goes to its own handler; the reply carries that intent; only the confirm branch sends an order, exactly when the cart is non-empty and for the session's cart and table; intents other than add, remove, confirm and cancel change nothing |
| AiOrder.AiOrderService.ProcessCustomerMessage | src/main/java/hoavinh/mocvien_coffee/ai_engine/service/AiOrderService.java:62-83 | the turn's intent is the one detected from the message and whether the session's cart is empty; an order is sent only on a confirmation with a non-empty cart, for that cart and the request's table number (or the stored one) |
| Cart.CartItem.constructor | src/main/java/hoavinh/mocvien_coffee/ai_engine/service/CartItem.java:14-19 | the four-argument constructor stores product, quantity, note and price as given |
| Cart.CartItem.SetProduct | src/main/java/hoavinh/mocvien_coffee/ai_engine/service/CartItem.java:26-28 | the setter changes the product and nothing else |
| Cart.CartItem.SetQuantity | src/main/java/hoavinh/mocvien_coffee/ai_engine/service/CartItem.java:34-36 | the setter changes the quantity and nothing else |
| Cart.CartItem.SetNote | src/main/java/hoavinh/mocvien_coffee/ai_engine/service/CartItem.java:42-44 | the setter changes the note and nothing else |
| Cart.CartItem.SetPrice | src/main/java/hoavinh/mocvien_coffee/ai_engine/service/CartItem.java:50-52 | the setter changes the price snapshot and nothing else |
| Cart.CartItem.Subtotal | src/main/java/hoavinh/mocvien_coffee/ai_engine/service/CartItem.java:54-56 | getSubtotal is the price snapshot times the quantity, and needs a price (unboxing null throws) |
| Cart.IndexOfId | src/main/java/hoavinh/mocvien_coffee/ai_engine/service/ConversationService.java:42-52 | the inner loop stops at the first cart line with the incoming product id, or runs off the end when none has it |
| Cart.MergeLineSpec | src/main/java/hoavinh/mocvien_coffee/ai_engine/service/ConversationService.java:39-57 | merging one incoming line: only the first line with its id changes, gaining its quantity and its note when that is non-blank; with no such line it is appended; no line moves or loses its product or price; one line per id is kept |
| Cart.MergeAllSnoc | src/main/java/hoavinh/mocvien_coffee/ai_engine/service/ConversationService.java:39-57 | the outer loop merges the incoming lines one after another, in order |
| Cart.MergeAllKeepsCart | src/main/java/hoavinh/mocvien_coffee/ai_engine/service/ConversationService.java:39-57 | merging any list never drops a line or rewrites the product or price snapshot of a line already in the cart, and keeps one line per id |
| Cart.MergeAllPriced | src/main/java/hoavinh/mocvien_coffee/ai_engine/service/ConversationService.java:39-57 | merging priced lines into a priced cart leaves every line priced |
| Cart.RemoveNamed | src/main/java/hoavinh/mocvien_coffee/ai_engine/service/ConversationService.java:69-73 | removeIf keeps exactly the lines whose product name equals none of the names ignoring case, and never adds one |
| Cart.RemoveNamedKeepsOrder | src/main/java/hoavinh/mocvien_coffee/ai_engine/service/ConversationService.java:69-73 | the kept lines are in their original order, and a cart with one line per id still has one line per id |
| Cart.RemoveNamedPriced | src/main/java/hoavinh/mocvien_coffee/ai_engine/service/ConversationService.java:69-73 | removing lines from a priced cart leaves it priced |
| Cart.TotalAppend | src/main/java/hoavinh/mocvien_coffee/ai_engine/service/ConversationService.java:128-130 | the stream sum over two carts laid end to end is the sum of their totals |
| Session.ConversationState.constructor | src/main/java/hoavinh/mocvien_coffee/ai_engine/service/ConversationState.java:16-20 | the no-argument constructor: no id, empty cart, no table, empty metadata, active now |
| Session.ConversationState.WithId | src/main/java/hoavinh/mocvien_coffee/ai_engine/service/ConversationState.java:22-25 | the one-argument constructor: as the no-argument one, with the id set |
| Session.ConversationState.SetTableNumber | src/main/java/hoavinh/mocvien_coffee/ai_engine/service/ConversationState.java:48-50 | the setter changes the table number and no other field |
| Session.ConversationState.SetLastActivity | src/main/java/hoavinh/mocvien_coffee/ai_engine/service/ConversationState.java:56-58 | the setter changes the activity time and no other field |
| Session.ConversationState.UpdateActivity | src/main/java/hoavinh/mocvien_coffee/ai_engine/service/ConversationState.java:68-70 | updateActivity stamps the current time and changes no other field |
| Conversations.StorePut | src/main/java/hoavinh/mocvien_coffee/ai_engine/service/ConversationService.java:26-30 | computeIfAbsent stores a new state under its own id, which keeps the store's invariant |
| Conversations.StoreRemove | src/main/java/hoavinh/mocvien_coffee/ai_engine/service/ConversationService.java:136-138 | forgetting a session keeps the store's invariant |
| Conversations.MergeInto | src/main/java/hoavinh/mocvien_coffee/ai_engine/service/ConversationService.java:40-56 | one round of addToCart's outer loop merges the incoming line as the merge definition says, either updating an existing object in place or appending the incoming object itself, and changes no other field of the session |
| Conversations.MergeAllInto | src/main/java/hoavinh/mocvien_coffee/ai_engine/service/ConversationService.java:39-57 | the outer loop leaves the session's list holding the merge of all incoming lines, in order, each object appearing once and coming from the old list or the incoming one |
| Conversations.RemoveIf | src/main/java/hoavinh/mocvien_coffee/ai_engine/service/ConversationService.java:69-73 | removeIf keeps, in order, exactly the objects whose lines the remove definition keeps |
| Conversations.RemoveFrom | src/main/java/hoavinh/mocvien_coffee/ai_engine/service/ConversationService.java:69-75 | the state's cart becomes the remove definition applied to its lines, still without duplicate objects; its id and table are kept and its activity time stamped |
| Conversations.ConversationService.constructor | src/main/java/hoavinh/mocvien_coffee/ai_engine/service/ConversationService.java:15 | the store starts empty |
| Conversations.ConversationService.GetOrCreate | src/main/java/hoavinh/mocvien_coffee/ai_engine/service/ConversationService.java:21-31 | the state stored under the id (a generated one when it is blank) is returned; when there is none a new empty state with that id, active now, is stored and returned; no other session changes |
| Conversations.ConversationService.AddToCart | src/main/java/hoavinh/mocvien_coffee/ai_engine/service/ConversationService.java:36-61 | the session's cart becomes the merge of the incoming lines into it, its table is kept, its activity time is stamped, and the map changes only at the session's key |
| Conversations.ConversationService.RemoveFromCart | src/main/java/hoavinh/mocvien_coffee/ai_engine/service/ConversationService.java:66-77 | the session's cart loses exactly the lines whose product name equals one of the names ignoring case; the table is kept, the activity time stamped, the map changed only at the session's key, and every other session keeps its cart and table |
| Conversations.ConversationService.SetTableNumber | src/main/java/hoavinh/mocvien_coffee/ai_engine/service/ConversationService.java:143-147 | the session's table number is set and its activity time stamped; its cart is untouched; an unknown id creates a new session |
| Conversations.ConversationService.GetCart | src/main/java/hoavinh/mocvien_coffee/ai_engine/service/ConversationService.java:82-88 | a copy of the session's list with the same line objects; an unknown id gives an empty list and creates nothing |
| Conversations.ConversationService.CartTotal | src/main/java/hoavinh/mocvien_coffee/ai_engine/service/ConversationService.java:123-131 | the sum of the line subtotals, 0 for an unknown or empty session |
| Conversations.ConversationService.CartSummary | src/main/java/hoavinh/mocvien_coffee/ai_engine/service/ConversationService.java:93-118 | the empty-cart message exactly when the session has no line; otherwise its lines and their total |
| Conversations.ConversationService.ClearConversation | src/main/java/hoavinh/mocvien_coffee/ai_engine/service/ConversationService.java:136-138 | exactly this session is forgotten |
| Conversations.ConversationService.CleanupExpiredSessions | src/main/java/hoavinh/mocvien_coffee/ai_engine/service/ConversationService.java:152-162 | exactly the sessions without an activity time or idle for more than 30 whole minutes are removed; the others are kept as they are |
| Tools.ToolQuantity | src/main/java/hoavinh/mocvien_coffee/ai_engine/tools/AiOrderTools.java:72-80 | the quantity used is at least 1: the requested one when it is positive, 1 when it is null or not positive |
| Tools.AddOutcome | src/main/java/hoavinh/mocvien_coffee/ai_engine/tools/AiOrderTools.java:70-107 | addToCart reports an added line exactly when the request passes the checks and the top search hit is available, and then reports that line's quantity (at least 1), product name and subtotal |
| Tools.MatchingNamesSpec | src/main/java/hoavinh/mocvien_coffee/ai_engine/tools/AiOrderTools.java:152-157 | a product name is collected exactly when some cart line carries it and, lower-cased, it contains the query or is contained in it |
| Tools.RemoveMatching | src/main/java/hoavinh/mocvien_coffee/ai_engine/tools/AiOrderTools.java:152-163 | removing the collected names takes out exactly the lines that match the query; no line whose name does not match goes with them |
| Tools.RemoveKeepsUnmatched | src/main/java/hoavinh/mocvien_coffee/ai_engine/tools/AiOrderTools.java:137-166 | removeFromCart keeps exactly the lines that do not match the query, and keeps them all when it refuses a null or blank item name or session id |
| Tools.PositiveTotal | src/main/java/hoavinh/mocvien_coffee/ai_engine/tools/AiOrderTools.java:121-126 | a cart of lines with positive prices and quantities has a positive total exactly when it is non-empty, so the total-is-zero test reads as an emptiness test |
| Tools.AiOrderTools.constructor | src/main/java/hoavinh/mocvien_coffee/ai_engine/tools/AiOrderTools.java:26-30 | the tools work on the given conversation store |
| Tools.AiOrderTools.GetMenu | src/main/java/hoavinh/mocvien_coffee/ai_engine/tools/AiOrderTools.java:37-61 | a null or blank query gets the prompt; otherwise the top five search hits are listed, or a not-found reply when there are none |
| Tools.AiOrderTools.AddToCart | src/main/java/hoavinh/mocvien_coffee/ai_engine/tools/AiOrderTools.java:69-108 | the reply is the add outcome; a refusal leaves the store as it was; otherwise the session's cart becomes the merge of one new line (effective quantity, no note, the product's price as snapshot) and every other session is kept |
| Tools.AiOrderTools.AddTopHit | src/main/java/hoavinh/mocvien_coffee/ai_engine/tools/AiOrderTools.java:101-106 | one new line object for the product is merged into the session's cart (creating the session when missing), and its subtotal is reported |
| Tools.AiOrderTools.ViewCart | src/main/java/hoavinh/mocvien_coffee/ai_engine/tools/AiOrderTools.java:115-130 | a null or blank session id gets the session error; otherwise the empty-cart reply exactly when the store's total is 0, and the cart's listing and total otherwise |
| Tools.AiOrderTools.ViewCartEmptyExactly | src/main/java/hoavinh/mocvien_coffee/ai_engine/tools/AiOrderTools.java:121-126 | for a cart of lines priced above zero, the empty-cart reply comes exactly when the cart is empty |
| Tools.AiOrderTools.CollectMatchingNames | src/main/java/hoavinh/mocvien_coffee/ai_engine/tools/AiOrderTools.java:152-157 | the loop over the copied cart collects exactly the matching names, in cart order |
| Tools.AiOrderTools.RemoveFromCart | src/main/java/hoavinh/mocvien_coffee/ai_engine/tools/AiOrderTools.java:136-167 | the reply is the remove outcome; the map of sessions never changes; only a removal changes a session object, the session's cart becomes the cart with the matching lines taken out, and every other session keeps its cart and table |
| Tools.AiOrderTools.RemoveMatchingLines | src/main/java/hoavinh/mocvien_coffee/ai_engine/tools/AiOrderTools.java:149-163 | the names of the matching lines are collected, and exactly those lines are removed when there are any, leaving every other session's cart and table as they were; with none the cart is unchanged |
| Orders.DefaultTableNumber | src/main/java/hoavinh/mocvien_coffee/service/OrderService.java:43-45 | the order's table number is never blank: the request's own when it is present and not blank, "Takeout" otherwise |
| Orders.PriceItemsSpec | src/main/java/hoavinh/mocvien_coffee/service/OrderService.java:104-117 | pricing succeeds exactly when every requested product id is known, and then yields one order item per request line, in order, each at the request's price or else the catalog price; an unknown id is "Product not found" |
| Orders.DerivedTotalAppend | src/main/java/hoavinh/mocvien_coffee/service/OrderService.java:103-108 | the derived total is additive over the item list: the total of two lists laid end to end is the sum of their totals |
| Orders.DefaultTotal | src/main/java/hoavinh/mocvien_coffee/service/OrderService.java:119-123 | with neither a total nor a surcharge amount given, the total is the derived total raised by the surcharge percent, and with no percent either the surcharge is 0 and the total is the derived total |
| JavaInt.AddInt | src/main/java/hoavinh/mocvien_coffee/service/OrderService.java:138 | Java int addition lands in the int range, differs from the exact sum by a multiple of 2^32, and is the exact sum when that fits |
| Orders.PointsEarned | src/main/java/hoavinh/mocvien_coffee/service/OrderService.java:137 | the points for a positive total are its whole thousands, rounded down, as Java's (int) cast gives them: 1000 times the points is at most the total, one more point would exceed it, and the points saturate at the largest int exactly when the total reaches 1000 times it |
| Orders.ResolveCustomer | src/main/java/hoavinh/mocvien_coffee/service/OrderService.java:51-92 | an existing customer found by phone keeps id and phone and gets non-null points; a new customer has the next id, 0 points and a non-blank name; "name required" is returned exactly when a non-blank phone matches no customer and no non-blank name is given; "customer not found" exactly when there is no usable phone and the given id matches no customer |
| Orders.Credited | src/main/java/hoavinh/mocvien_coffee/service/OrderService.java:135-139 | a positive total adds its points to the customer's points (null counting as 0) as Java ints add: the exact sum while it fits, and the sum less 2^32 when it passes the largest int; nothing else changes, and a total that is not positive leaves the customer as they are |
| Orders.Committed | src/main/java/hoavinh/mocvien_coffee/service/OrderService.java:132-140 | after the order, the customer repository holds the credited customer in place of the existing one, or appended when new, and is unchanged when the order has no customer |
| Orders.PointsCredited | src/main/java/hoavinh/mocvien_coffee/service/OrderService.java:135-139 | a known customer ordering for a positive total, whose new balance still fits an int, gains exactly the whole thousands of the total in points, and every other customer is unchanged |
| Orders.PointsWrap | src/main/java/hoavinh/mocvien_coffee/service/OrderService.java:136-138 | the balance is a Java int: a customer at the largest int who orders for 1000 ends with the smallest int |
| Orders.Rejection | src/main/java/hoavinh/mocvien_coffee/service/OrderService.java:38-106 | when no exception is thrown, the request has items, every product id is known, the customer step succeeds and a given table id exists |
| Orders.OrderFor | src/main/java/hoavinh/mocvien_coffee/service/OrderService.java:94-130 | the saved order is COMPLETED, carries the priced items and the given table reference, its surcharge is the given amount or the percent of the derived total, and its total is the given total or the derived total plus the surcharge |
| Orders.OrderService.constructor | src/main/java/hoavinh/mocvien_coffee/service/OrderService.java:26-34 | a new service has the given table service and product catalog, and no customers or orders |
| Orders.OrderService.BuildItems | src/main/java/hoavinh/mocvien_coffee/service/OrderService.java:103-117 | the items loop yields exactly the priced items, or the unknown-product error, and its running sum is the derived total of the items |
| Orders.OrderService.Commit | src/main/java/hoavinh/mocvien_coffee/service/OrderService.java:132-140 | saving appends the order and stores the customer credited with the order's points, leaving the catalog unchanged |
| Orders.OrderService.CreateOrder | src/main/java/hoavinh/mocvien_coffee/service/OrderService.java:37-146 | createOrder fails exactly with the first check that fails, and then changes nothing; otherwise it appends the order for the resolved customer and priced items and credits the customer; with a table id, the order is named after the table and the table is released; without one, the order carries the request's table number or "Takeout" |
| Tables.Saved | src/main/java/hoavinh/mocvien_coffee/service/TableService.java:34-43 | save fills a missing status with AVAILABLE and keeps the name and active flag; an inactive table is stored DISABLED with no seating time; an active table with a status is stored as given |
| Tables.AfterOccupy | src/main/java/hoavinh/mocvien_coffee/service/TableService.java:50-60 | occupy fails exactly on a DISABLED table; otherwise the table ends OCCUPIED with name and active flag kept, an already OCCUPIED table is left as it was, and any other is seated at the current time |
| Tables.AfterRelease | src/main/java/hoavinh/mocvien_coffee/service/TableService.java:63-68 | release leaves every table AVAILABLE with no seating time, keeping its name and active flag |
| Tables.SavedIdempotent | src/main/java/hoavinh/mocvien_coffee/service/TableService.java:34-43 | saving a table a second time stores the same state again |
| Tables.OccupyIdempotent | src/main/java/hoavinh/mocvien_coffee/service/TableService.java:50-60 | a second occupy, at any later time, keeps the first seating time |
| Tables.ReleaseThenOccupy | src/main/java/hoavinh/mocvien_coffee/service/TableService.java:50-68 | after release any table, a disabled one included, can be occupied and is then OCCUPIED at the current time |
| Tables.DisabledStaysDisabled | src/main/java/hoavinh/mocvien_coffee/service/TableService.java:38-54 | an inactive table, once saved, is refused by occupy |
| Tables.TableService.constructor | src/main/java/hoavinh/mocvien_coffee/service/TableService.java:17-19 | a new service starts with an empty, well-formed repository |
| Tables.TableService.GetById | src/main/java/hoavinh/mocvien_coffee/service/TableService.java:29-32 | getById returns the stored table exactly when the id is stored, and "Table not found" otherwise |
| Tables.TableService.Save | src/main/java/hoavinh/mocvien_coffee/service/TableService.java:34-43 | save normalises the table in place as Saved describes and stores it under its id, keeping every table under its own id |
| Tables.TableService.Delete | src/main/java/hoavinh/mocvien_coffee/service/TableService.java:45-47 | delete removes exactly the given id from the repository |
| Tables.TableService.Occupy | src/main/java/hoavinh/mocvien_coffee/service/TableService.java:50-60 | occupy reports "Table not found" for an unknown id, succeeds exactly when AfterOccupy does and then leaves the table in that state, and on "Table is disabled" changes nothing |
| Tables.TableService.Release | src/main/java/hoavinh/mocvien_coffee/service/TableService.java:63-68 | release reports "Table not found" for an unknown id and otherwise leaves the stored table in the AfterRelease state |
| Tables.CafeTable.constructor | src/main/java/hoavinh/mocvien_coffee/dto/CafeTableDto.java:5-9 | a table is built with exactly the given id, name, active flag, status and seating time |
| Folding.FoldChar | src/main/java/hoavinh/mocvien_coffee/ai_engine/advisors/OrderIntentAdvisor.java:161-167 | the accent classes are replaced by their base letters: no marked letter survives, and every other char is kept |
| Folding.FoldLetter | src/main/java/hoavinh/mocvien_coffee/ai_engine/advisors/OrderIntentAdvisor.java:160-167 | lower-casing then folding gives a lower-case, unmarked char, keeps whitespace as it is and keeps every char's side of U+0020, so trimming is unaffected |
| Folding.PlainLetterFolds | src/main/java/hoavinh/mocvien_coffee/ai_engine/advisors/OrderIntentAdvisor.java:160-167 | the ASCII letters a to z are left as they are |
| Folding.FoldChars | src/main/java/hoavinh/mocvien_coffee/ai_engine/advisors/OrderIntentAdvisor.java:160-167 | the char-wise part of normalize keeps the length and folds each char in place |
| Folding.FoldCharsAppend | src/main/java/hoavinh/mocvien_coffee/ai_engine/advisors/OrderIntentAdvisor.java:160-167 | the char-wise fold distributes over concatenation |
| Folding.Fold | src/main/java/hoavinh/mocvien_coffee/ai_engine/advisors/OrderIntentAdvisor.java:158-169 | normalize yields a folded string no longer than its input |
| Folding.TrimFoldCommute | src/main/java/hoavinh/mocvien_coffee/ai_engine/advisors/OrderIntentAdvisor.java:160-168 | trimming before or after the char-wise fold gives the same string |
| Folding.FoldCharsOfFolded | src/main/java/hoavinh/mocvien_coffee/ai_engine/advisors/OrderIntentAdvisor.java:160-167 | the char-wise fold leaves an already folded string unchanged |
| Folding.FoldIdempotent | src/main/java/hoavinh/mocvien_coffee/ai_engine/advisors/OrderIntentAdvisor.java:158-169 | normalizing a normalized message changes nothing |
| Folding.FoldOfBlank | src/main/java/hoavinh/mocvien_coffee/ai_engine/advisors/OrderIntentAdvisor.java:158-169 | a blank message normalizes to a blank string |
| Folding.RemoveRegexSpaces | src/main/java/hoavinh/mocvien_coffee/ai_engine/service/ProductMatchingService.java:75 | replaceAll("\\s+", "") leaves no regex whitespace, never lengthens the string and keeps it folded |
| Folding.Compact | src/main/java/hoavinh/mocvien_coffee/ai_engine/service/ProductMatchingService.java:65-77 | the product matcher's normalize yields a folded string with no regex whitespace anywhere |
| Matching.NamesMatchSymmetric | src/main/java/hoavinh/mocvien_coffee/ai_engine/service/ProductMatchingService.java:25-27 | the per-product test treats name and query alike: swapping them gives the same answer |
| Matching.SpacingIgnored | src/main/java/hoavinh/mocvien_coffee/ai_engine/service/ProductMatchingService.java:65-77 | names that differ only in whitespace normalize to the same string and so match each other |
| Matching.RemoveSpacesFoldCommute | src/main/java/hoavinh/mocvien_coffee/ai_engine/service/ProductMatchingService.java:67-75 | deleting whitespace and folding letters can be done in either order |
| Matching.FindProductsByName | src/main/java/hoavinh/mocvien_coffee/ai_engine/service/ProductMatchingService.java:16-30 | a blank query finds nothing; otherwise a product is found exactly when it is on the menu and its normalized name contains the normalized query, is contained in it, or is more than 0.7 similar; the result keeps menu order |
| Matching.MatchProductFromNaturalLanguage | src/main/java/hoavinh/mocvien_coffee/ai_engine/service/ProductMatchingService.java:35-42 | a blank text matches nothing, and no match means no menu product passes the name test |
| Matching.MatchIsFirst | src/main/java/hoavinh/mocvien_coffee/ai_engine/service/ProductMatchingService.java:35-42 | a product found is a menu product passing the name test, and no product before it on the menu passes |
| Matching.SuggestSimilarProducts | src/main/java/hoavinh/mocvien_coffee/ai_engine/service/ProductMatchingService.java:47-60 | a blank name suggests nothing; otherwise the suggestions are the first five menu products, in menu order, whose normalized name contains the normalized query, and each would also be found by findProductsByName |
| EditDistance.MinIsLeast | src/main/java/hoavinh/mocvien_coffee/ai_engine/service/ProductMatchingService.java:106-109 | Math.min returns one of its arguments and is no more than either |
| EditDistance.CellIsLeast | src/main/java/hoavinh/mocvien_coffee/ai_engine/service/ProductMatchingService.java:106-109 | each table cell is the cheapest of deleting, inserting and substituting, and equals one of them |
| EditDistance.LevenshteinDistance | src/main/java/hoavinh/mocvien_coffee/ai_engine/service/ProductMatchingService.java:96-115 | the row-by-row table fill returns the edit distance of the two whole strings |
| EditDistance.DistBounds | src/main/java/hoavinh/mocvien_coffee/ai_engine/service/ProductMatchingService.java:96-115 | the distance between two prefixes is at most the longer prefix length and at least the difference of their lengths |
| EditDistance.DistSelf | src/main/java/hoavinh/mocvien_coffee/ai_engine/service/ProductMatchingService.java:96-115 | a prefix is at distance 0 from itself |
| EditDistance.LevSelf | src/main/java/hoavinh/mocvien_coffee/ai_engine/service/ProductMatchingService.java:96-115 | a string is at distance 0 from itself |
| EditDistance.DistZeroMeansEqual | src/main/java/hoavinh/mocvien_coffee/ai_engine/service/ProductMatchingService.java:96-115 | distance 0 between prefixes means the prefixes are equal |
| EditDistance.LevPositive | src/main/java/hoavinh/mocvien_coffee/ai_engine/service/ProductMatchingService.java:96-115 | distinct strings are at a positive distance |
| EditDistance.CellSwap | src/main/java/hoavinh/mocvien_coffee/ai_engine/service/ProductMatchingService.java:106-107 | swapping the delete and insert candidates leaves the cell unchanged |
| EditDistance.DistSymmetric | src/main/java/hoavinh/mocvien_coffee/ai_engine/service/ProductMatchingService.java:96-115 | the distance between prefixes does not depend on the order of the strings |
| EditDistance.LevSymmetric | src/main/java/hoavinh/mocvien_coffee/ai_engine/service/ProductMatchingService.java:96-115 | the edit distance is symmetric |
| EditDistance.LevBounds | src/main/java/hoavinh/mocvien_coffee/ai_engine/service/ProductMatchingService.java:96-115 | the edit distance lies between the length difference and the longer length, and from the empty string it is the other string's length |
| SimilarityScore.RatioBounds | src/main/java/hoavinh/mocvien_coffee/ai_engine/service/ProductMatchingService.java:89-90 | a distance between 1 and the longer length gives a ratio in (0, 1] |
| SimilarityScore.BelowRatio | src/main/java/hoavinh/mocvien_coffee/ai_engine/service/ProductMatchingService.java:90 | 10 d < 3 m puts the ratio d / m below 0.3 |
| SimilarityScore.AboveRatio | src/main/java/hoavinh/mocvien_coffee/ai_engine/service/ProductMatchingService.java:90 | 10 d >= 3 m puts the ratio d / m at 0.3 or more |
| SimilarityScore.RatioThreshold | src/main/java/hoavinh/mocvien_coffee/ai_engine/service/ProductMatchingService.java:82-91 | 1 - d / m exceeds 0.7 exactly when 10 d < 3 m |
| SimilarityScore.Similarity | src/main/java/hoavinh/mocvien_coffee/ai_engine/service/ProductMatchingService.java:82-91 | the similarity lies in [0, 1] and is 1 exactly for equal strings |
| SimilarityScore.SimilarityThreshold | src/main/java/hoavinh/mocvien_coffee/ai_engine/service/ProductMatchingService.java:82-91 | a similarity above 0.7 means exactly equal strings or an edit distance below three tenths of the longer length |
| SimilarityScore.SimilaritySymmetric | src/main/java/hoavinh/mocvien_coffee/ai_engine/service/ProductMatchingService.java:82-91 | the similarity does not depend on the order of its arguments |
| Intent.DetectIntent | src/main/java/hoavinh/mocvien_coffee/ai_engine/advisors/OrderIntentAdvisor.java:40-91 | a blank message is UNKNOWN, REMOVE_FROM_CART needs a non-empty cart, and UPDATE_QUANTITY is never returned, because every digit message is already ADD_TO_CART |
| Intent.MarkedKeywordNeverMatches | src/main/java/hoavinh/mocvien_coffee/ai_engine/advisors/OrderIntentAdvisor.java:158-169 | a keyword holding an accented letter never occurs in a normalized message, since normalize removes those letters |
| Intent.KeywordNotInBlank | src/main/java/hoavinh/mocvien_coffee/ai_engine/advisors/OrderIntentAdvisor.java:41-43 | a keyword that starts with a non-whitespace char never occurs in a blank string |
| Intent.LiveGreetingKeywords | src/main/java/hoavinh/mocvien_coffee/ai_engine/advisors/OrderIntentAdvisor.java:96-99 | on a normalized message the greeting test is exactly "contains hello or hi" |
| Intent.LiveViewCartKeywords | src/main/java/hoavinh/mocvien_coffee/ai_engine/advisors/OrderIntentAdvisor.java:104-107 | on a normalized message the view-cart test is exactly "contains cart" |
| Intent.LiveConfirmKeywords | src/main/java/hoavinh/mocvien_coffee/ai_engine/advisors/OrderIntentAdvisor.java:112-115 | on a normalized message the confirm test is exactly "contains order, ok or checkout" |
| Intent.LiveCancelKeywords | src/main/java/hoavinh/mocvien_coffee/ai_engine/advisors/OrderIntentAdvisor.java:120-123 | on a normalized message the cancel test is exactly "contains cancel" |
| Intent.LiveRemoveKeywords | src/main/java/hoavinh/mocvien_coffee/ai_engine/advisors/OrderIntentAdvisor.java:128-131 | on a normalized message the remove test is exactly "contains remove" |
| Intent.LiveMenuKeywords | src/main/java/hoavinh/mocvien_coffee/ai_engine/advisors/OrderIntentAdvisor.java:136-139 | on a normalized message the menu test is exactly "contains menu" |
| Intent.LiveAddPhrases | src/main/java/hoavinh/mocvien_coffee/ai_engine/advisors/OrderIntentAdvisor.java:147-152 | of the add phrases only "mua" can occur in a normalized message |
| Intent.LiveIntentOfBlank | src/main/java/hoavinh/mocvien_coffee/ai_engine/advisors/OrderIntentAdvisor.java:41-43 | the reduced chain gives UNKNOWN on a blank string, as the explicit blank test does |
| Intent.DetectIntentIsLive | src/main/java/hoavinh/mocvien_coffee/ai_engine/advisors/OrderIntentAdvisor.java:40-169 | detectIntent equals the reduced chain on the normalized message, so the intent depends only on the normalized message and on whether the cart is empty |
| Intent.DetectIntentDependsOnFold | src/main/java/hoavinh/mocvien_coffee/ai_engine/advisors/OrderIntentAdvisor.java:40-91 | two messages with the same normalized form get the same intent |
| Intent.HiMeansGreeting | src/main/java/hoavinh/mocvien_coffee/ai_engine/advisors/OrderIntentAdvisor.java:96-99 | the tests use substring containment, so any message whose normalized form contains "hi" is a GREETING |
| Intent.FoldOfHowMuch | src/main/java/hoavinh/mocvien_coffee/ai_engine/advisors/OrderIntentAdvisor.java:158-169 | "bao nhiêu" normalizes to a string that contains "hi" |
| Intent.HowMuchIsGreeting | src/main/java/hoavinh/mocvien_coffee/ai_engine/advisors/OrderIntentAdvisor.java:34-50 | asking "bao nhiêu" (how much) is classified as GREETING, not ASK_MENU |
| Intent.ViewCartBeforeCancel | src/main/java/hoavinh/mocvien_coffee/ai_engine/advisors/OrderIntentAdvisor.java:52-60 | the rules run in a fixed order: a message naming both the cart and cancel, and no greeting, is VIEW_CART |
| Extraction.Decimal | src/main/java/hoavinh/mocvien_coffee/ai_engine/tools/OrderExtractionHelper.java:36-47 | a non-negative number's decimal numeral is a non-empty run of digits, the form group 1 captures |
| Extraction.DecimalValue | src/main/java/hoavinh/mocvien_coffee/ai_engine/tools/OrderExtractionHelper.java:36-47 | reading a decimal numeral back gives the number it was written from |
| Extraction.ParseIntDecimal | src/main/java/hoavinh/mocvien_coffee/ai_engine/tools/OrderExtractionHelper.java:36-66 | Integer.parseInt accepts the numeral of every value up to Integer.MAX_VALUE and returns that value, and rejects every larger one, so that match is skipped |
| Extraction.FirstMenuMatch | src/main/java/hoavinh/mocvien_coffee/ai_engine/tools/OrderExtractionHelper.java:76-87 | a product found is on the menu and its normalized name and the normalized text contain one another; nothing is found exactly when no menu product passes that test |
| Extraction.FirstMenuMatchIsFirst | src/main/java/hoavinh/mocvien_coffee/ai_engine/tools/OrderExtractionHelper.java:79-84 | the product found is the first menu product that passes the test |
| Extraction.FindProductInMenu | src/main/java/hoavinh/mocvien_coffee/ai_engine/tools/OrderExtractionHelper.java:76-87 | the menu loop returns the first product whose normalized name and the normalized text contain one another, or nothing |
| Extraction.ItemOf | src/main/java/hoavinh/mocvien_coffee/ai_engine/tools/OrderExtractionHelper.java:36-47 | an item taken from a match names a menu product, carries a quantity between 0 and Integer.MAX_VALUE, and has no note |
| Extraction.PassResolved | src/main/java/hoavinh/mocvien_coffee/ai_engine/tools/OrderExtractionHelper.java:35-48 | every item of one matcher pass names a menu product, with an int quantity and no note |
| Extraction.Extract | src/main/java/hoavinh/mocvien_coffee/ai_engine/tools/OrderExtractionHelper.java:19-71 | a blank message yields no item |
| Extraction.ExtractResolved | src/main/java/hoavinh/mocvien_coffee/ai_engine/tools/OrderExtractionHelper.java:19-71 | every extracted item names a menu product, with an int quantity and no note |
| Extraction.PassEmptyMenu | src/main/java/hoavinh/mocvien_coffee/ai_engine/tools/OrderExtractionHelper.java:41-44 | no match resolves against an empty menu |
| Extraction.ExtractEmptyMenu | src/main/java/hoavinh/mocvien_coffee/ai_engine/tools/OrderExtractionHelper.java:22-44 | an empty menu, and so a null one, yields no item |
| Extraction.ExtractOrderItems | src/main/java/hoavinh/mocvien_coffee/ai_engine/tools/OrderExtractionHelper.java:19-71 | the phrase loop, then the bare-number loop only when the first found nothing, returns exactly the specified items |
| Extraction.PassStep | src/main/java/hoavinh/mocvien_coffee/ai_engine/tools/OrderExtractionHelper.java:35-48 | one round of the find loop adds the current match's item and moves on to the match's end, keeping the whole pass intact |
| Extraction.MatchItem | src/main/java/hoavinh/mocvien_coffee/ai_engine/tools/OrderExtractionHelper.java:36-47 | the loop body parses group 1, trims group 2 and resolves it against the menu, as ItemOf states |
| Extraction.RunPass | src/main/java/hoavinh/mocvien_coffee/ai_engine/tools/OrderExtractionHelper.java:33-67 | one find loop collects exactly the items of the pass from the start of the message |
| OrderPattern.SpaceRunEnd | src/main/java/hoavinh/mocvien_coffee/ai_engine/tools/OrderExtractionHelper.java:29-52 | a greedy \\s+ run: every char up to the end is regex whitespace and the next char is not |
| OrderPattern.DigitRunEnd | src/main/java/hoavinh/mocvien_coffee/ai_engine/tools/OrderExtractionHelper.java:29-52 | a greedy \\d+ run: every char up to the end is a digit and the next char is not |
| OrderPattern.TwoWordsAt | src/main/java/hoavinh/mocvien_coffee/ai_engine/tools/OrderExtractionHelper.java:29 | the two-word keywords "cho tôi" and "tôi muốn" end after the point where they start |
| OrderPattern.KeywordEnd | src/main/java/hoavinh/mocvien_coffee/ai_engine/tools/OrderExtractionHelper.java:29 | the ordering phrase, its alternatives tried in order, ends after the point where it starts |
| OrderPattern.CloseEnd | src/main/java/hoavinh/mocvien_coffee/ai_engine/tools/OrderExtractionHelper.java:29-52 | the closing group (" và", " ," or the end of the input) ends at or after the point where it is tried |
| OrderPattern.LazyEnd | src/main/java/hoavinh/mocvien_coffee/ai_engine/tools/OrderExtractionHelper.java:29-52 | the lazy (.+?) ends at the first point at or after e where the closing group matches, and crosses no line terminator |
| OrderPattern.SpanFrom | src/main/java/hoavinh/mocvien_coffee/ai_engine/tools/OrderExtractionHelper.java:29-52 | group 2 takes at least one char, crosses no line terminator and is followed by the closing group |
| OrderPattern.GapAndSpan | src/main/java/hoavinh/mocvien_coffee/ai_engine/tools/OrderExtractionHelper.java:29-52 | the \\s+ before group 2 is non-empty and all whitespace, and group 2 after it crosses no line terminator |
| OrderPattern.DigitsAndSpan | src/main/java/hoavinh/mocvien_coffee/ai_engine/tools/OrderExtractionHelper.java:29-52 | a match built from a digit run is well formed and starts where the match started, with its digits where they were found |
| OrderPattern.MatchAt | src/main/java/hoavinh/mocvien_coffee/ai_engine/tools/OrderExtractionHelper.java:29-52 | a match found at k is well formed and starts at k; a bare-pattern match starts with its digits, and a phrase match starts with the ordering phrase |
| OrderPattern.FindFrom | src/main/java/hoavinh/mocvien_coffee/ai_engine/tools/OrderExtractionHelper.java:35-55 | Matcher.find from p returns a well-formed match starting at or after p, and it is the match at its own start |
| OrderPattern.FindFromIsFirst | src/main/java/hoavinh/mocvien_coffee/ai_engine/tools/OrderExtractionHelper.java:35-55 | find skips no match: no position between p and the match found, or the end of the input, has a match of its own |
| ExtractionExample.ExampleMatch | src/main/java/hoavinh/mocvien_coffee/ai_engine/tools/OrderExtractionHelper.java:17-29 | in "cho tôi 2 cà phê đen" the phrase pattern matches the whole message, with "2" as group 1 and "cà phê đen" as group 2 |
| ExtractionExample.ExampleNoMore | src/main/java/hoavinh/mocvien_coffee/ai_engine/tools/OrderExtractionHelper.java:35 | the phrase pattern finds no second match after the first |
| ExtractionExample.ExampleItem | src/main/java/hoavinh/mocvien_coffee/ai_engine/tools/OrderExtractionHelper.java:36-44 | the match gives that product with quantity 2 and no note |
| ExtractionExample.ExampleOrder | src/main/java/hoavinh/mocvien_coffee/ai_engine/tools/OrderExtractionHelper.java:17-71 | the documented example "cho tôi 2 cà phê đen" against a menu whose first product is "cà phê đen" yields exactly that product with quantity 2 |
| Products.SearchProducts | src/main/java/hoavinh/mocvien_coffee/service/ProductService.java:29-41 | the result is exactly the table's available products in the category (every category when it is null, blank or "all") whose lower-cased name contains the lower-cased search text, the search being skipped when null or blank; it is never longer than the table |
| Products.GetAvailableProducts | src/main/java/hoavinh/mocvien_coffee/service/ProductService.java:25-27 | getAvailableProducts is the category's base list, with no name filter |
| Products.SearchIsSubsequence | src/main/java/hoavinh/mocvien_coffee/service/ProductService.java:29-41 | the result keeps the database's name order and adds nothing: it is a subsequence of the base list and of the table |
| Products.AllIgnoresCase | src/main/java/hoavinh/mocvien_coffee/service/ProductService.java:30-32 | "all" in any case selects the same list as no category at all |
| Products.SearchAgainIsStable | src/main/java/hoavinh/mocvien_coffee/service/ProductService.java:34-40 | filtering the result again by the same text returns it unchanged |
| Products.SearchIgnoresCase | src/main/java/hoavinh/mocvien_coffee/service/ProductService.java:34-40 | the search text's case does not change the result |
| Products.UpperKeepsWhitespace | src/main/java/hoavinh/mocvien_coffee/service/ProductService.java:34 | upper-casing neither makes nor unmakes a whitespace char, so a search's blankness does not depend on its case |
| Products.ProductService.constructor | src/main/java/hoavinh/mocvien_coffee/service/ProductService.java:19-23 | a new service has an empty product table and an empty index, which agree |
| Products.ProductService.Save | src/main/java/hoavinh/mocvien_coffee/service/ProductService.java:48-59 | save stores the product under its id, then puts it in the index when it is available and takes it out when not; a failed index call leaves the index as it was; a reachable index that agreed with the table still agrees |
| Products.ProductService.Delete | src/main/java/hoavinh/mocvien_coffee/service/ProductService.java:62-67 | delete removes the id from the table and, when the index is reachable, from the index, keeping them in agreement |
| Products.ProductService.GetById | src/main/java/hoavinh/mocvien_coffee/service/ProductService.java:69-71 | getById returns the stored product exactly when the id is stored, and "Product not found" otherwise |
| Users.NormalizedRole | src/main/java/hoavinh/mocvien_coffee/service/UserService.java:34-39 | the stored role starts with "ROLE_" and is upper case; a role already starting with "ROLE_" is only upper-cased, and any other gets the prefix first |
| Users.NormalizedRoleIdempotent | src/main/java/hoavinh/mocvien_coffee/service/UserService.java:34-39 | normalizing a stored role leaves it unchanged |
| Users.LowerCasePrefixDoubled | src/main/java/hoavinh/mocvien_coffee/service/UserService.java:34-39 | the prefix test is case-sensitive, so "role_admin" is stored as "ROLE_ROLE_ADMIN" |
| Users.UserService.constructor | src/main/java/hoavinh/mocvien_coffee/service/UserService.java:16-19 | a new service has no users |
| Users.UserService.GetByUsername | src/main/java/hoavinh/mocvien_coffee/service/UserService.java:25-28 | getByUsername returns the stored user of that name exactly when the name is taken, and "User not found" otherwise |
| Users.UserService.CreateUser | src/main/java/hoavinh/mocvien_coffee/service/UserService.java:30-42 | createUser refuses a taken username and saves nothing; otherwise it stores exactly one new user with the encoded password and the normalized role; either way the name is then taken and usernames stay unique |
| Users.UserService.ResetPassword | src/main/java/hoavinh/mocvien_coffee/service/UserService.java:48-53 | resetPassword replaces exactly the password hash of the given user, and an unknown id is "User not found" and changes nothing |
| Users.UserService.DeleteUser | src/main/java/hoavinh/mocvien_coffee/service/UserService.java:44-46 | deleteUser removes exactly the given id, and usernames stay unique |
| Dashboard.HourOf | src/main/java/hoavinh/mocvien_coffee/service/DashboardService.java:54 | an order's hour of day is between 0 and 23 |
| Dashboard.DayOfBounds | src/main/java/hoavinh/mocvien_coffee/service/DashboardService.java:68 | an instant's date is d exactly when it lies from the start of day d up to, not including, the start of day d + 1 |
| Dashboard.DetermineWindow | src/main/java/hoavinh/mocvien_coffee/service/DashboardService.java:86-96 | the window runs from the start of the range's first day (6 days back for "week", 29 for "month", today otherwise, any case) to the start of tomorrow, covering 7, 30 or 1 whole days |
| Dashboard.Consecutive | src/main/java/hoavinh/mocvien_coffee/service/DashboardService.java:50-66 | the pre-filled keys are n consecutive values starting at the first hour or day |
| Dashboard.Points | src/main/java/hoavinh/mocvien_coffee/service/DashboardService.java:57-73 | one point per key of the map, in key order, valued with the summed totals of the orders under that key |
| Dashboard.RevenueSeries | src/main/java/hoavinh/mocvien_coffee/service/DashboardService.java:45-74 | revenueSeries returns exactly the specified series of the window's orders |
| Dashboard.Buckets | src/main/java/hoavinh/mocvien_coffee/service/DashboardService.java:49-73 | pre-filling a LinkedHashMap with zeros and merging each order's total with addition gives one point per key in insertion order, each the key's summed totals |
| Dashboard.RevenueStep | src/main/java/hoavinh/mocvien_coffee/service/DashboardService.java:53-70 | one more merge adds the order's total to its own key's revenue and to no other |
| Dashboard.RevenueOfAbsentKey | src/main/java/hoavinh/mocvien_coffee/service/DashboardService.java:49-66 | a pre-filled key that no order falls under keeps revenue 0 |
| Dashboard.MergeStep | src/main/java/hoavinh/mocvien_coffee/service/DashboardService.java:53-70 | a merge under a present key keeps the key order, and under a new key appends it |
| Dashboard.MergedClosed | src/main/java/hoavinh/mocvien_coffee/service/DashboardService.java:53-56 | when every order's key is pre-filled, merging adds no key |
| Dashboard.MergedOneExtra | src/main/java/hoavinh/mocvien_coffee/service/DashboardService.java:67-70 | when only one key outside the pre-filled ones can occur, merging appends it once, exactly when some order falls under it |
| Dashboard.HoursPrefilled | src/main/java/hoavinh/mocvien_coffee/service/DashboardService.java:50-54 | every order's hour is one of the 24 pre-filled keys |
| Dashboard.TodaySeries | src/main/java/hoavinh/mocvien_coffee/service/DashboardService.java:48-59 | range "today" gives 24 points, hours 00 to 23 in order, each the summed totals of the window's orders in that hour, 0 for an hour without orders |
| Dashboard.WindowDays | src/main/java/hoavinh/mocvien_coffee/service/DashboardService.java:62-70 | every order of the closed window falls on one of the range's days, or on tomorrow exactly when it is stamped at the window's end |
| Dashboard.ClosedWindowDays | src/main/java/hoavinh/mocvien_coffee/service/DashboardService.java:47-70 | the BETWEEN query is closed, so an order falls on tomorrow exactly when a stored order is stamped at the window's end |
| Dashboard.DaySeries | src/main/java/hoavinh/mocvien_coffee/service/DashboardService.java:61-73 | other ranges give one point per day of the range, oldest first, each the day's summed totals, plus one more point when an order is stamped at the first instant of tomorrow |
| Dashboard.DayKeys | src/main/java/hoavinh/mocvien_coffee/service/DashboardService.java:61-70 | the daily map's keys are the range's days in order, then tomorrow exactly when an order is stamped at the window's end |
| Dashboard.DayPointsPrefix | src/main/java/hoavinh/mocvien_coffee/service/DashboardService.java:71-73 | over keys that start with n consecutive days, the first n points are those days, in order, with their revenue |
| Dashboard.WeekSeriesExtraPoint | src/main/java/hoavinh/mocvien_coffee/service/DashboardService.java:45-73 | one order stamped at the first instant of tomorrow gives the seven-day series an eighth point |
| Dashboard.IntendedSeriesShape | src/main/java/hoavinh/mocvien_coffee/service/DashboardService.java:45-73 | over the half-open window the series has exactly one point per hour, or per day of the range, in order, each the bucket's summed totals |
| Dashboard.TodayStats | src/main/java/hoavinh/mocvien_coffee/service/DashboardService.java:34-43 | the stats count the orders of today's closed window, report revenue 0 when none of them is COMPLETED, and name the best seller or "N/A" when there is none |
| Dashboard.NoCompletedNoRevenue | src/main/java/hoavinh/mocvien_coffee/repository/OrderRepository.java:15-16 | without a COMPLETED order the revenue sum is 0 |
| Dashboard.HourRevenueSnoc | src/main/java/hoavinh/mocvien_coffee/service/DashboardService.java:53-56 | one more order adds its total to the hours below n exactly when its own hour is one of them |
| Dashboard.HourRevenueEmpty | src/main/java/hoavinh/mocvien_coffee/service/DashboardService.java:49-52 | with no orders every hour holds 0 |
| Dashboard.HourRevenueIsTotal | src/main/java/hoavinh/mocvien_coffee/service/DashboardService.java:53-56 | the 24 hourly buckets together hold every order exactly once, so with every order COMPLETED they sum to the day's revenue |
| Dashboard.SeriesTotalOfHours | src/main/java/hoavinh/mocvien_coffee/service/DashboardService.java:57-59 | a series whose j-th value is hour j's revenue totals the revenue of those hours |
| Dashboard.StatsAgreeWithTodaySeries | src/main/java/hoavinh/mocvien_coffee/service/DashboardService.java:34-59 | when every order is COMPLETED, today's stats report as revenue exactly the sum of the 24 points of the "today" series |
| Dashboard.ProductMix | src/main/java/hoavinh/mocvien_coffee/service/DashboardService.java:76-84 | one point per row of the category query, with its category and quantity sum, in row order; no rows give an empty list |
| PosCart.EffectivePrice | src/main/resources/static/js/main.js:287-289 | a line is charged its override when it has one, and its unit price otherwise |
| PosCart.SubtotalAppend | src/main/resources/static/js/main.js:292 | the subtotal is additive over carts laid end to end |
| PosCart.ItemCountAppend | src/main/resources/static/js/main.js:130-137 | the unit count is additive over carts laid end to end |
| PosCart.SplitAt | src/main/resources/static/js/main.js:292 | a cart's subtotal and unit count are those of the lines before i, line i, and the lines after it |
| PosCart.ReplaceLine | src/main/resources/static/js/main.js:291-298 | changing one line in place moves the subtotal and the unit count by exactly that line's difference |
| PosCart.RemoveLine | src/main/resources/static/js/main.js:312-320 | splicing out line i takes exactly its total and its units out of the cart's sums |
| PosCart.CalculateTotals | src/main/resources/static/js/main.js:291-298 | the subtotal sums the lines at their effective prices, the surcharge is the percent of the subtotal, the total their sum, and the change what the cash exceeds the total by, never negative |
| PosCart.MergeIndex | src/main/resources/static/js/main.js:124-128 | the merge target is the first line of the same product with no note that has not been sent to the kitchen, and no line before it qualifies; none found is the cart's length |
| PosCart.AddToCartSpec | src/main/resources/static/js/main.js:121-144 | a card click adds exactly one unit: to the first mergeable line, charged at that line's effective price, with every other line unchanged; or, with none, as a new one-unit line at the card's price at the end |
| PosCart.AddMerges | src/main/resources/static/js/main.js:129-130 | the merge case adds one unit and one effective price to the sums, and keeps the number of lines |
| PosCart.OneMoreUnit | src/main/resources/static/js/main.js:129-130 | one more unit on a line costs one more effective price |
| PosCart.AddAppends | src/main/resources/static/js/main.js:131-141 | the append case adds one unit and the card's price to the sums |
| PosCart.MarkNotified | src/main/resources/static/js/main.js:241-245 | marking sends every line to the kitchen and changes nothing else |
| PosCart.MarkNotifiedKeepsTotals | src/main/resources/static/js/main.js:241-245 | marking the lines as sent changes neither the subtotal nor the unit count |
| PosCart.AddAfterNotifyAppends | src/main/resources/static/js/main.js:121-144 | after the kitchen has the order, adding a product again always starts a new line, since no sent line is merged into |
| PosCart.AddDuringSaveMarked | src/main/resources/static/js/main.js:229-244 | as written, a product added while the pending order is being saved is marked as sent afterwards, though it was in neither the slip nor the saved order |
| PosCart.MarkSent | src/main/resources/static/js/main.js:240-244 | the corrected marking: a line becomes sent only when it already was or still stands, unchanged and in place, as in the cart that was sent; nothing else about it changes |
| PosCart.MarkSentOnlySent | src/main/resources/static/js/main.js:240-244 | the corrected marking never marks a line the kitchen did not receive |
| PosCart.MarkSentUnchanged | src/main/resources/static/js/main.js:240-244 | with nothing changed while the save was in flight, the corrected marking marks every line, as the page does |
| PosCart.AddDuringSaveKept | src/main/resources/static/js/main.js:229-244 | under the corrected marking, a product added while the save was in flight stays unsent, so the next notification sends it |
| PosCart.AdjustedSpec | src/main/resources/static/js/main.js:312-320 | the +/- buttons keep every line at one unit or more; a line that would reach zero or less is removed, taking its units out, and otherwise the unit count moves by delta |
| PosCart.AdjustUndo | src/main/resources/static/js/main.js:312-320 | pressing + then - on a line that keeps its units gives the cart back |
| PosCart.DecreaseFloor | src/main/resources/static/js/main.js:340-347 | however often the modal's - is pressed, a line of q units ends at max(1, q - n) |
| PosCart.SavedLine | src/main/resources/static/js/main.js:362-374 | save sets the note always, and the override only for an admin and only to a parsed price of zero or more; id, units, unit price and kitchen flag are kept |
| PosCart.PayloadItems | src/main/resources/static/js/main.js:430-435 | the payload has one item per cart line, in order, with its product id, units, effective price and note |
| PosCart.PrepareCheckout | src/main/resources/static/js/main.js:411-438 | checkout gives nothing exactly when the cart is empty or the cash does not cover the total; otherwise it returns calculateTotals' figures, and the payload carries the subtotal-plus-surcharge total, the percent, the surcharge amount, the cart's items, the cash, a non-negative change equal to cash minus total, and the selected table's id or null |
| PosCart.PayloadMatchesCart | src/main/resources/static/js/main.js:430-435 | the payload's items, at the prices sent, add up to the cart's subtotal |
| PosCart.PreparedPayloadTotal | src/main/resources/static/js/main.js:411-438 | a prepared payload is self-consistent: its items' sum plus its surcharge amount is its total, the surcharge is the percent of that sum, and the change is the cash less the total |
| PosCart.CartKey | src/main/resources/static/js/main.js:697-700 | a selected table with a non-zero id has its own storage key "pos_cart_TABLE_<id>", and everything else uses "pos_cart_TAKEAWAY" |
| PosCart.CartKeysDistinct | src/main/resources/static/js/main.js:697-700 | two tables share a saved cart exactly when they have the same id, and no table shares the take-away cart |
| PosCart.PosState.constructor | src/main/resources/static/js/main.js:2-12 | the page starts with an empty cart, no line being edited, no table, no cash and the given role and surcharge percent |
| PosCart.PosState.AddToCart | src/main/resources/static/js/main.js:121-144 | a card click leaves the cart as AddToCartSpec describes, keeping every line at one unit or more, and changes nothing else on the page |
| PosCart.PosState.AdjustQuantity | src/main/resources/static/js/main.js:312-320 | the +/- buttons leave the cart as AdjustedSpec describes and change nothing else on the page |
| PosCart.PosState.OpenEditModal | src/main/resources/static/js/main.js:322-325 | opening the modal remembers the index, even for a missing line, and changes nothing else |
| PosCart.PosState.Edited | src/main/resources/static/js/main.js:334-374 | the line a modal button acts on exists in the cart |
| PosCart.PosState.ModalIncrease | src/main/resources/static/js/main.js:334-338 | the modal's + adds one unit to the edited line only, and does nothing without one |
| PosCart.PosState.ModalDecrease | src/main/resources/static/js/main.js:340-347 | the modal's - takes one unit off the edited line, never below one, and does nothing without one |
| PosCart.PosState.ModalRemove | src/main/resources/static/js/main.js:355-360 | the modal's remove splices out exactly the edited line, keeping every other line in order |
| PosCart.PosState.ModalSave | src/main/resources/static/js/main.js:362-374 | the modal's save replaces the edited line by SavedLine and changes nothing else |
| PosCart.PosState.SendToKitchen | src/main/resources/static/js/main.js:197-233 | up to the save request: the slip is printed exactly when some line has not been sent, and then the pending order's items are the whole cart at its effective prices; the page state is not changed |
| PosCart.PosState.MarkAfterSave | src/main/resources/static/js/main.js:235-244 | once the save request returns: a successful save marks every line of the cart as it is then as sent, a failed one changes nothing |
| PosCart.PosState.NotifyKitchen | src/main/resources/static/js/main.js:196-252 | with nothing else happening during the save: the kitchen slip is printed exactly when some line has not been sent; the lines are marked as sent only when the pending order was also saved; otherwise the cart is unchanged |
| PosCart.PosState.Totals | src/main/resources/static/js/main.js:291-298 | the page's totals are those of its own cart, surcharge percent and cash |
| PosCart.PosState.PrepareCheckoutNow | src/main/resources/static/js/main.js:411-438 | checkout on the page prepares exactly what PrepareCheckout gives for the page's cart, percent, cash and table |
| PosCart.PosState.CurrentCartKey | src/main/resources/static/js/main.js:697-700 | the page's storage key is that of its selected table |

## Left out

- Language model, vector search and order placement: their results are parameters. The prompts, the streaming RAG controller, `MenuContextService` and the Qdrant HTTP client are not part of this model.
- Reply wording: replies are datatypes naming the answer and its data. The texts of addToCart's success, viewCart's empty cart and removeFromCart's success are given as strings with their numbers and names as parameters. `%.0f` price formatting, the other Vietnamese message texts and `buildResponse`'s display strings are left out.
- Floating-point presentation: `DashboardService.round`, JavaScript `toFixed` and `formatCurrency` are left out. Money is exact `real`, so rounding and NaN are not modelled.
- Dashboard labels: a chart point carries its hour, day or category, not the `%02d:00`, `MM/dd` or locale weekday text.
- Clock, randomness and ids: `LocalDateTime.now()`, `System.currentTimeMillis`, `generateSessionId`'s random part and database-assigned ids are parameters.
- Concurrency: the `ConcurrentHashMap` store is a sequential map owned by one object.
- Persistence: repositories are maps or sequences. The database's name ordering and collation are taken as given in the input sequence. SQL `UPPER` in the category query is modelled as `equalsIgnoreCase`.
- Case mapping: `toLowerCase`/`toUpperCase` cover ASCII, the Latin-1 letters 'À'..'Þ' and 'à'..'þ' (except '×' and '÷'), and the Vietnamese letters. Java also upper-cases 'µ' to U+039C, 'ÿ' to U+0178 and 'ß' to "SS" (one char becoming two); the model leaves these three, locale-specific mappings and all other characters unchanged.
- Users.NormalizedRole: the result is upper case only on the modelled letters; a role holding 'µ', 'ÿ' or 'ß' keeps them, where Java would map them as above.
- Password hashing: BCrypt's output is a parameter.
- `CustomerService`: customers are a sequence searched by phone number or id. Its own validation is not part of this model.
- Cashier page plumbing: the DOM, receipts, `window.print`, `fetch`, `localStorage`, `loadPendingOrders`, `loadCartFromStorage`, `finalizeCheckout`, table selection and the debounce timers are left out.
- Cashier page inputs: the surcharge percent is read from the page state, not from the input element. The price field's parse result is a parameter, with None for NaN. The payload's `tableNumber` and `surchargeName` texts are left out. An override of `undefined` is treated like `null`.
- Cashier page ids: table ids are natural numbers, so negative ids are not modelled.
- Extraction scanner: matching is exact for the two fixed patterns only. It is not a general regular-expression engine.
- Conversations.ConversationService.AddToCart: does not state that the carts of other sessions keep their contents, only that the map changes at the session's key alone. A cross-session ownership invariant made the proof too costly. The summed quantity is an unbounded integer, not a wrapping Java int.
- Tools.AiOrderTools.AddToCart: inherits that gap; the other sessions' carts are not stated to be kept (the removing side states it).
- Tools.AiOrderTools.AddTopHit: the same gap as Tools.AiOrderTools.AddToCart.
- Agent.AiOrderAgentService.RunAdd: the same gap; it also states nothing about the other sessions.
- AiOrder.AiOrderService.HandleAddToCart: the same gap; the merged quantities are unbounded integers.
- Agent.AiOrderAgentService.RunTool: does not state that the other sessions' carts are kept. Agent.AiOrderAgentService.RunRemove states it for a removal; the add branch has the gap above.
- Agent.AiOrderAgentService.ToolStep: the same gap as Agent.AiOrderAgentService.RunTool.
- Agent.AiOrderAgentService.Turn: the same gap as Agent.AiOrderAgentService.RunTool.
- Agent.AiOrderAgentService.ProcessCustomerMessage: the same gap as Agent.AiOrderAgentService.RunTool.
- AiOrder.AiOrderService.HandleIntent: the add handler's gap carries over; the other handlers state their frames.
- AiOrder.AiOrderService.ProcessCustomerMessage: the same gap as AiOrder.AiOrderService.HandleIntent.
- Agent.AiOrderAgentService.Conclude: a tool turn's text is `render` of the tool reply, a parameter, so its intent is stated only as DetectIntentFromResponse of that text. Agent.AddedTextIntent, Agent.EmptyCartTextIntent and Agent.RemovedTextIntent give the intent for the three reply texts the tools word; the other replies' texts are not modelled.
- Cart.MergeLineSpec: the merged quantity is the exact sum. Java's `int` would wrap past 2^31 - 1; quantities that large are not modelled.
- Conversations.MergeInto: the same unbounded sum as Cart.MergeLineSpec (`setQuantity(getQuantity() + …)` on Java ints).
- Java int arithmetic elsewhere: quantities, line totals and ids are unbounded integers. Only the loyalty points (Orders.PointsEarned, Orders.Credited) and the parsed quantity (`Integer.parseInt`) follow Java's int range.

## Findings

| source | as written | input that shows it | evidently intended | confidence | as-written member | corrected member |
|---|---|---|---|---|---|---|
| src/main/resources/static/js/main.js:229-244 | `handleNotifyKitchen` marks every line with `notified = true` after `await fetch` returns, over `state.cart` as it is then. Lines added while the request was in flight are marked too. | notify kitchen, then add a new product before the save answers: the new line is shown as sent, though neither the slip nor the pending order had it, and the next notification skips it | mark only the lines that were sent, as they were sent (`PosCart.MarkSentOnlySent`, `PosCart.AddDuringSaveKept`) | not executed | PosCart.AddDuringSaveMarked | PosCart.MarkSent |
| src/main/java/hoavinh/mocvien_coffee/service/DashboardService.java:47-73 | `findByCreatedAtBetween` is inclusive at both ends and the window ends at tomorrow 00:00, so an order stamped exactly then is read. The daily map then gains a key for tomorrow. | range "week" and one order created at the first instant of tomorrow: the series has 8 points instead of 7 | a half-open window: one point per hour, or per day of the range, and nothing from tomorrow (`Dashboard.IntendedSeriesShape`) | not executed | Dashboard.WeekSeriesExtraPoint | Dashboard.IntendedSeries |
