/**
 * AiOrderService: one chat turn of the rule-based ordering assistant. The
 * message's intent selects a handler; the handlers read and change the
 * session store and answer with a response that lists the session's cart.
 *
 * The language model's free-text answers (menu questions and unrecognised
 * messages) and the order placement are collaborators: the generated text and
 * the outcome of placing the order are parameters. Reply wording is not
 * modelled; a reply says which answer was given and with what data.
 */
module AiOrder {
  import opened Wrappers
  import opened Text
  import opened Catalog
  import opened Cart
  import opened Session
  import opened Conversations
  import opened Intent
  import opened Extraction
  import opened Orders

  /** CartItemDto: a cart line as the response lists it. */
  datatype CartItemDto = CartItemDto(productId: int, name: string, quantity: int, price: Option<real>, note: Option<string>)

  function Dto(l: Line): CartItemDto {
    CartItemDto(l.product.id, l.product.name, l.quantity, l.price, l.note)
  }

  function Dtos(lines: seq<Line>): (r: seq<CartItemDto>)
    ensures |r| == |lines| && forall i :: 0 <= i < |lines| ==> r[i] == Dto(lines[i])
  {
    seq(|lines|, i requires 0 <= i < |lines| => Dto(lines[i]))
  }

  /** Why validateCartItems refused the items. */
  datatype Rejection = NothingToAdd | OutOfStock(name: string) | NonPositiveQuantity

  /** Which answer the response carries. */
  datatype Reply =
    | Welcome
    | Generated(text: string)
    | AskWhatToOrder
    | Refused(reason: Rejection)
    | Added(lines: seq<Line>)
    | CartShown(summary: Summary)
    | AskWhatToRemove
    | Removed
    | UpdateUnsupported
    | NothingToConfirm
    | OrderPlaced(orderId: int, total: real)
    | OrderFailed
    | Cancelled

  /** AiOrderResponse. */
  datatype AiOrderResponse = AiOrderResponse(
    message: Reply,
    intent: OrderIntent,
    cartItems: seq<CartItemDto>,
    totalAmount: Option<real>,
    orderId: Option<int>,
    requiresConfirmation: bool)

  /** What the order placement collaborator returned: the saved order's id and
    * total. None stands for any exception (no user to place it as, or
    * createOrder refusing the request). */
  datatype PlacedOrder = PlacedOrder(id: int, totalAmount: real)

  // ---------------------------------------------------------------------------
  // validateCartItems.

  /** The loop of validateCartItems: the first line whose product is unavailable
    * or whose quantity is not positive decides the refusal. */
  function FirstInvalid(lines: seq<Line>): (r: Option<Rejection>)
    ensures r.Some? ==> r.value != NothingToAdd
  {
    if lines == [] then None
    else if !lines[0].product.available then Some(OutOfStock(lines[0].product.name))
    else if lines[0].quantity <= 0 then Some(NonPositiveQuantity)
    else FirstInvalid(lines[1..])
  }

  /** validateCartItems, as a specification: None when the items are valid. */
  function Validate(lines: seq<Line>): Option<Rejection> {
    if lines == [] then Some(NothingToAdd) else FirstInvalid(lines)
  }

  /** A line that can be added: its product is available and its quantity positive. */
  predicate Acceptable(l: Line) {
    l.product.available && l.quantity > 0
  }

  /** The refusal a line that is not acceptable draws: an unavailable product
    * is reported before a bad quantity. */
  function RejectionOf(l: Line): Rejection {
    if !l.product.available then OutOfStock(l.product.name) else NonPositiveQuantity
  }

  /** Line i is the first one that is not acceptable. */
  predicate FirstRejectedAt(lines: seq<Line>, i: int) {
    0 <= i < |lines| && !Acceptable(lines[i]) && forall j :: 0 <= j < i ==> Acceptable(lines[j])
  }

  /** Validation passes exactly for a non-empty list of acceptable lines; a
    * refusal names the first line that is not acceptable. */
  lemma ValidateSpec(lines: seq<Line>)
    ensures Validate(lines).None? <==> lines != [] && forall i :: 0 <= i < |lines| ==> Acceptable(lines[i])
    ensures Validate(lines) == Some(NothingToAdd) <==> lines == []
    ensures Validate(lines).Some? && lines != [] ==>
      exists i :: FirstRejectedAt(lines, i) && Validate(lines) == Some(RejectionOf(lines[i]))
  {
    if lines != [] {
      FirstInvalidSpec(lines);
    }
  }

  lemma {:induction false} FirstInvalidSpec(lines: seq<Line>)
    ensures FirstInvalid(lines).None? <==> forall i :: 0 <= i < |lines| ==> Acceptable(lines[i])
    ensures FirstInvalid(lines).Some? ==>
      exists i :: FirstRejectedAt(lines, i) && FirstInvalid(lines) == Some(RejectionOf(lines[i]))
    decreases |lines|
  {
    if lines == [] {
    } else if !Acceptable(lines[0]) {
      assert FirstRejectedAt(lines, 0);
    } else {
      var tail := lines[1..];
      FirstInvalidSpec(tail);
      assert forall i :: 0 <= i < |tail| ==> tail[i] == lines[i + 1];
      if FirstInvalid(tail).Some? {
        var i :| FirstRejectedAt(tail, i) && FirstInvalid(tail) == Some(RejectionOf(tail[i]));
        assert FirstRejectedAt(lines, i + 1) by {
          forall j | 0 <= j < i + 1 ensures Acceptable(lines[j]) {
            if j > 0 {
              assert lines[j] == tail[j - 1];
            }
          }
        }
      } else {
        forall i | 0 <= i < |lines| ensures Acceptable(lines[i]) {
          if i > 0 {
            assert lines[i] == tail[i - 1];
          }
        }
      }
    }
  }

  /** validateCartItems: the loop over the items, returning at the first refusal. */
  method ValidateCartItems(items: seq<CartItem>) returns (r: Option<Rejection>)
    ensures r == Validate(Lines(items))
  {
    if items == [] {
      return Some(NothingToAdd);
    }
    ghost var lines := Lines(items);
    for i := 0 to |items|
      invariant FirstInvalid(lines) == FirstInvalid(lines[i..])
    {
      assert lines[i..][1..] == lines[i + 1..];
      if !items[i].product.available {
        return Some(OutOfStock(items[i].product.name));
      }
      if items[i].quantity <= 0 {
        return Some(NonPositiveQuantity);
      }
    }
    return None;
  }

  // ---------------------------------------------------------------------------
  // extractProductNamesFromMessage.

  /** The lower-cased message contains the lower-cased name. */
  predicate Mentions(message: string, name: string) {
    Contains(Lower(message), Lower(name))
  }

  /** The names of the cart lines the message mentions, in cart order (a name
    * appears once per line that carries it). */
  function MentionedNames(message: string, cart: seq<Line>): seq<string>
    decreases |cart|
  {
    if cart == [] then []
    else
      var last := cart[|cart| - 1];
      MentionedNames(message, cart[..|cart| - 1]) + (if Mentions(message, last.product.name) then [last.product.name] else [])
  }

  /** A name is extracted exactly when some cart line carries it and the
    * message mentions it. */
  lemma {:induction false} MentionedNamesSpec(message: string, cart: seq<Line>)
    ensures forall n :: n in MentionedNames(message, cart) <==>
      (Mentions(message, n) && exists i :: 0 <= i < |cart| && cart[i].product.name == n)
    decreases |cart|
  {
    if cart != [] {
      var init := cart[..|cart| - 1];
      MentionedNamesSpec(message, init);
      assert forall i :: 0 <= i < |init| ==> init[i] == cart[i];
      forall n | Mentions(message, n) && (exists i :: 0 <= i < |cart| && cart[i].product.name == n)
        ensures n in MentionedNames(message, cart)
      {
        var i :| 0 <= i < |cart| && cart[i].product.name == n;
        if i < |init| {
          assert init[i].product.name == n;
        }
      }
    }
  }

  /** Removing the extracted names removes exactly the cart lines whose name
    * the message mentions: names are compared ignoring case, and two names
    * equal ignoring case are mentioned together. */
  lemma RemoveMentioned(message: string, cart: seq<Line>)
    ensures forall l :: l in RemoveNamed(cart, MentionedNames(message, cart)) <==>
      l in cart && !Mentions(message, l.product.name)
  {
    var names := MentionedNames(message, cart);
    MentionedNamesSpec(message, cart);
    forall l | l in cart ensures NamedIn(l, names) <==> Mentions(message, l.product.name) {
      if Mentions(message, l.product.name) {
        var i :| 0 <= i < |cart| && cart[i] == l;
        assert l.product.name in names;
        var k :| 0 <= k < |names| && names[k] == l.product.name;
        assert EqualsIgnoreCase(l.product.name, names[k]);
      }
      if NamedIn(l, names) {
        var k :| 0 <= k < |names| && EqualsIgnoreCase(l.product.name, names[k]);
        assert names[k] in names;
        EqualsIgnoreCaseIsLowerEquality(l.product.name, names[k]);
      }
    }
  }

  /** extractProductNamesFromMessage: the loop over the session's cart objects. */
  method ExtractProductNamesFromMessage(message: string, state: ConversationState) returns (names: seq<string>)
    ensures names == MentionedNames(message, Lines(state.cartItems))
  {
    var items := state.cartItems;
    ghost var lines := Lines(items);
    names := [];
    var lowerMessage := Lower(message);
    for t := 0 to |items|
      invariant names == MentionedNames(message, lines[..t])
    {
      assert lines[..t + 1][..t] == lines[..t];
      if Contains(lowerMessage, Lower(items[t].product.name)) {
        names := names + [items[t].product.name];
      }
    }
    assert lines[..|items|] == lines;
  }

  // ---------------------------------------------------------------------------
  // handleAddToCart's conversion and handleConfirmOrder's request.

  /** An extracted item as the cart line handleAddToCart makes of it: the price
    * snapshot is the product's price at this turn. */
  function LineOf(e: ExtractedItem): Line {
    Line(e.product, e.quantity, e.note, Some(e.product.price))
  }

  function LinesOf(extracted: seq<ExtractedItem>): (r: seq<Line>)
    ensures |r| == |extracted| && forall i :: 0 <= i < |extracted| ==> r[i] == LineOf(extracted[i])
    ensures AllPriced(r)
  {
    seq(|extracted|, i requires 0 <= i < |extracted| => LineOf(extracted[i]))
  }

  /** The conversion to CartItem objects, one new object per extracted item. */
  method ToCartItems(extracted: seq<ExtractedItem>) returns (items: seq<CartItem>)
    ensures Lines(items) == LinesOf(extracted)
    ensures Distinct(items) && forall j :: 0 <= j < |items| ==> fresh(items[j])
  {
    items := [];
    for n := 0 to |extracted|
      invariant Lines(items) == LinesOf(extracted[..n])
      invariant Distinct(items) && forall j :: 0 <= j < |items| ==> fresh(items[j])
    {
      var e := extracted[n];
      var item := new CartItem(e.product, e.quantity, e.note, Some(e.product.price));
      LinesSnoc(items, item);
      assert LinesOf(extracted[..n + 1]) == LinesOf(extracted[..n]) + [LineOf(e)];
      items := items + [item];
    }
    assert extracted[..|extracted|] == extracted;
  }

  /** The order request handleConfirmOrder sends: one line per cart line with
    * its product id, quantity, price snapshot and note, the session's table
    * or "Takeout", and nothing else. */
  function ConfirmRequest(lines: seq<Line>, tableNumber: Option<string>): (r: OrderRequest)
    ensures r.tableId.None? && r.customerId.None? && r.customerPhoneNumber.None?
    ensures r.totalAmount.None? && r.surchargePercent.None? && r.surchargeAmount.None?
    ensures r.tableNumber == Some(tableNumber.GetOr("Takeout"))
    ensures |r.items| == |lines|
    ensures forall i :: 0 <= i < |lines| ==>
      r.items[i] == OrderItemRequest(lines[i].product.id, lines[i].quantity, lines[i].price, lines[i].note)
  {
    OrderRequest(None, Some(tableNumber.GetOr("Takeout")), None, None, None, None, None, None, None, None, None,
      seq(|lines|, i requires 0 <= i < |lines| =>
        OrderItemRequest(lines[i].product.id, lines[i].quantity, lines[i].price, lines[i].note)))
  }

  /** Every product of the cart, under its id in the catalog. */
  predicate InCatalog(lines: seq<Line>, products: map<int, Product>) {
    forall i :: 0 <= i < |lines| ==> lines[i].product.id in products
  }

  /** The order placed from a priced cart whose products the catalog knows
    * costs exactly the cart total: every line keeps its price snapshot, and no
    * surcharge is asked for. */
  lemma {:induction false} ConfirmedOrderTotal(lines: seq<Line>, tableNumber: Option<string>, products: map<int, Product>)
    requires AllPriced(lines) && InCatalog(lines, products)
    ensures var request := ConfirmRequest(lines, tableNumber);
      PriceItems(request.items, products).Ok?
      && TotalOf(request, DerivedTotal(PriceItems(request.items, products).value)) == Total(lines)
    decreases |lines|
  {
    var request := ConfirmRequest(lines, tableNumber);
    PriceItemsSpec(request.items, products);
    var items := PriceItems(request.items, products).value;
    DerivedTotalIsTotal(lines, items);
  }

  /** The derived total of the items priced from a priced cart is its total. */
  lemma {:induction false} DerivedTotalIsTotal(lines: seq<Line>, items: seq<OrderItem>)
    requires AllPriced(lines) && |items| == |lines|
    requires forall i :: 0 <= i < |lines| ==>
      items[i].price == lines[i].price.value && items[i].quantity == lines[i].quantity
    ensures DerivedTotal(items) == Total(lines)
    decreases |lines|
  {
    if lines != [] {
      DerivedTotalIsTotal(lines[1..], items[1..]);
      assert items == [items[0]] + items[1..];
      DerivedTotalAppend([items[0]], items[1..]);
      assert DerivedTotal([items[0]]) == LineSubtotal(lines[0]) by {
        assert [items[0]][..0] == [];
      }
    }
  }

  /** What handleAddToCart decides before it touches the cart: ask again when
    * nothing was extracted, refuse when validation fails, or merge the lines. */
  datatype AddStep = AskAgain | Refuse(reason: Rejection) | Merge(lines: seq<Line>)

  function AddStepFor(message: string, menu: seq<Product>): (r: AddStep)
    ensures r.AskAgain? <==> Extract(message, menu) == []
    ensures r.Merge? ==> r.lines == LinesOf(Extract(message, menu)) && Validate(r.lines).None?
    ensures r.Refuse? ==> Validate(LinesOf(Extract(message, menu))) == Some(r.reason) && r.reason != NothingToAdd
  {
    var lines := LinesOf(Extract(message, menu));
    if lines == [] then AskAgain
    else if Validate(lines).Some? then Refuse(Validate(lines).value)
    else Merge(lines)
  }

  /** The first half of handleAddToCart: extraction, conversion to new cart
    * objects, validation. */
  method PrepareAdd(message: string, menu: seq<Product>) returns (step: AddStep, items: seq<CartItem>)
    ensures step == AddStepFor(message, menu)
    ensures step.Merge? ==> Lines(items) == step.lines
    ensures Distinct(items) && forall j :: 0 <= j < |items| ==> fresh(items[j])
  {
    var extracted := ExtractOrderItems(message, menu);
    if extracted == [] {
      return AskAgain, [];
    }
    items := ToCartItems(extracted);
    var validation := ValidateCartItems(items);
    if validation.Some? {
      return Refuse(validation.value), items;
    }
    return Merge(Lines(items)), items;
  }

  // ---------------------------------------------------------------------------
  // The service.

  /** state.getSessionId(). */
  function IdOf(state: ConversationState): string
    reads state
  {
    state.sessionId.GetOr("")
  }

  /** The state is the one the store holds under its own id. */
  ghost predicate Current(service: ConversationService, state: ConversationState)
    reads service, service.conversations.Values, state
  {
    service.Valid() && state.sessionId.Some?
    && state.sessionId.value in service.conversations
    && service.conversations[state.sessionId.value] == state
  }

  /** buildResponse: the state object's lines, and the store's total for the
    * state's id. */
  function BuildResponse(service: ConversationService, message: Reply, intent: OrderIntent, state: ConversationState)
    : (r: AiOrderResponse)
    reads state, state.cartItems, service, service.conversations.Values, service.CartObjects(IdOf(state))
    requires AllPriced(service.CartOf(IdOf(state)))
    ensures r.cartItems == Dtos(Lines(state.cartItems))
    ensures r.totalAmount == Some(Total(service.CartOf(IdOf(state))))
    ensures r.message == message && r.intent == intent && r.orderId.None? && !r.requiresConfirmation
  {
    AiOrderResponse(message, intent, Dtos(Lines(state.cartItems)), Some(service.CartTotal(IdOf(state))), None, false)
  }

  /** For the current state, the response lists exactly the lines its total adds up. */
  lemma ResponseIsConsistent(service: ConversationService, message: Reply, intent: OrderIntent, state: ConversationState)
    requires Current(service, state) && AllPriced(service.CartOf(IdOf(state)))
    ensures BuildResponse(service, message, intent, state).cartItems == Dtos(service.CartOf(IdOf(state)))
    ensures BuildResponse(service, message, intent, state).totalAmount == Some(Total(service.CartOf(IdOf(state))))
  {
  }

  /** getOrCreateConversation, seen from the raw id: the session stored under
    * the id, or a new empty one (under the generated id when the raw id is
    * blank); the raw id's own cart objects stay as they were. */
  method OpenSession(service: ConversationService, raw: string, freshId: string, now: int)
    returns (state: ConversationState)
    requires service.Valid() && !IsBlank(freshId)
    modifies service
    ensures Current(service, state)
    ensures IdOf(state) == SessionKey(raw, freshId)
    ensures state.cartItems == old(service.CartObjects(SessionKey(raw, freshId)))
    ensures state.tableNumber == old(service.TableOf(SessionKey(raw, freshId)))
    ensures service.CartObjects(raw) == old(service.CartObjects(raw))
    ensures forall k :: k in old(service.conversations) ==>
      k in service.conversations && service.conversations[k] == old(service.conversations[k])
    ensures forall k :: k in service.conversations ==>
      k in old(service.conversations) || fresh(service.conversations[k])
  {
    var key := SessionKey(raw, freshId);
    state := service.GetOrCreate(raw, freshId, now);
    assert service.CartObjects(raw) == old(service.CartObjects(raw)) by {
      if IsBlank(raw) && raw in service.conversations {
        assert service.conversations[raw].sessionId == Some(raw);
      }
    }
  }

  /** The table-number step: the store's setter on the raw id (a generated
    * id when it is blank), then the state's own. */
  method SetTable(service: ConversationService, raw: string, freshId2: string, table: Option<string>,
                  state: ConversationState, now: int)
    requires Current(service, state) && !IsBlank(freshId2)
    requires !IsBlank(raw) ==> IdOf(state) == raw
    modifies service, service.conversations.Values
    ensures Current(service, state)
    ensures state.tableNumber == table
    ensures forall k :: k in old(service.conversations) ==>
      k in service.conversations && service.conversations[k] == old(service.conversations[k])
      && service.conversations[k].cartItems == old(service.conversations[k].cartItems)
    ensures forall k :: k in service.conversations ==>
      k in old(service.conversations) || (k == freshId2 && fresh(service.conversations[k]))
    ensures IsBlank(raw) ==> freshId2 in service.conversations && service.TableOf(freshId2) == table
  {
    var key2 := SessionKey(raw, freshId2);
    assert key2 in service.conversations ==> service.conversations[key2] in service.conversations.Values;
    service.SetTableNumber(raw, freshId2, table, now);
    state.SetTableNumber(table);
    forall k | k in old(service.conversations)
      ensures service.conversations[k].cartItems == old(service.conversations[k].cartItems)
    {
      assert old(service.conversations[k]) in old(service.conversations).Values;
    }
  }

  /** The start of processCustomerMessage (of both services): the session for
    * the id (under a generated id when it is blank); then, for a non-blank
    * table number, the store's setTableNumber with the RAW id (a second
    * generated id when that is blank) and the state's own setter. */
  method OpenTurn(service: ConversationService, sessionId: Option<string>, tableNumber: Option<string>,
                  freshId: string, freshId2: string, now: int)
    returns (state: ConversationState)
    requires service.Valid() && !IsBlank(freshId) && !IsBlank(freshId2)
    modifies service, service.conversations.Values
    ensures Current(service, state)
    ensures IdOf(state) == SessionKey(sessionId.GetOr(""), freshId)
    ensures service.CartObjects(IdOf(state)) == old(service.CartObjects(SessionKey(sessionId.GetOr(""), freshId)))
    ensures service.CartOf(IdOf(state)) == old(service.CartOf(SessionKey(sessionId.GetOr(""), freshId)))
    ensures service.CartObjects(sessionId.GetOr("")) == old(service.CartObjects(sessionId.GetOr("")))
    ensures tableNumber.Some? && !IsBlank(tableNumber.value) ==> state.tableNumber == tableNumber
    ensures tableNumber.None? || IsBlank(tableNumber.value) ==>
      state.tableNumber == old(service.TableOf(SessionKey(sessionId.GetOr(""), freshId)))
    ensures forall k :: k in old(service.conversations) ==>
      k in service.conversations && service.conversations[k] == old(service.conversations[k])
    ensures forall k :: k in service.conversations && k !in old(service.conversations) ==>
      fresh(service.conversations[k])
    ensures tableNumber.Some? && !IsBlank(tableNumber.value) && IsBlank(sessionId.GetOr("")) ==>
      freshId2 in service.conversations && service.TableOf(freshId2) == tableNumber
  {
    var raw := sessionId.GetOr("");
    state := OpenSession(service, raw, freshId, now);
    if tableNumber.Some? && !IsBlank(tableNumber.value) {
      SetTable(service, raw, freshId2, tableNumber, state, now);
    }
  }

  /** handleConfirmOrder (of both services): an empty cart places nothing; otherwise the order
    * request is sent (the second result) and, when the order is placed, the
    * session is forgotten and the response carries the order's id and total;
    * when placing it throws, the session is kept. */
  method PlaceOrder(conversationService: ConversationService, state: ConversationState, placed: Option<PlacedOrder>)
    returns (resp: AiOrderResponse, sent: Option<OrderRequest>)
    requires Current(conversationService, state) && AllPriced(conversationService.CartOf(IdOf(state)))
    modifies conversationService
    ensures conversationService.Valid() && unchanged(old(conversationService.conversations.Values))
    ensures resp.intent == ConfirmOrder
    ensures old(conversationService.CartOf(IdOf(state))) == [] ==>
      sent.None? && resp.message == NothingToConfirm
      && conversationService.conversations == old(conversationService.conversations)
    ensures old(conversationService.CartOf(IdOf(state))) != [] ==>
      sent == Some(ConfirmRequest(old(conversationService.CartOf(IdOf(state))), state.tableNumber))
    ensures old(conversationService.CartOf(IdOf(state))) != [] && placed.Some? ==>
      conversationService.conversations == old(conversationService.conversations) - {IdOf(state)}
      && resp == AiOrderResponse(OrderPlaced(placed.value.id, placed.value.totalAmount), ConfirmOrder, [],
                                 Some(placed.value.totalAmount), Some(placed.value.id), false)
    ensures old(conversationService.CartOf(IdOf(state))) != [] && placed.None? ==>
      conversationService.conversations == old(conversationService.conversations)
      && resp.message == OrderFailed && resp.totalAmount == Some(Total(conversationService.CartOf(IdOf(state))))
  {
    var key := IdOf(state);
    var cartItems := conversationService.GetCart(key);
    if cartItems == [] {
      return BuildResponse(conversationService, NothingToConfirm, ConfirmOrder, state), None;
    }
    sent := Some(ConfirmRequest(Lines(cartItems), state.tableNumber));
    if placed.None? {
      return BuildResponse(conversationService, OrderFailed, ConfirmOrder, state), sent;
    }
    conversationService.ClearConversation(key);
    resp := AiOrderResponse(OrderPlaced(placed.value.id, placed.value.totalAmount), ConfirmOrder, [],
                            Some(placed.value.totalAmount), Some(placed.value.id), false);
  }

  class AiOrderService {
    const conversationService: ConversationService

    constructor (conversationService: ConversationService)
      ensures this.conversationService == conversationService
    {
      this.conversationService := conversationService;
    }

    /** handleGreeting. */
    function HandleGreeting(state: ConversationState): (r: AiOrderResponse)
      reads this, state, state.cartItems, conversationService, conversationService.conversations.Values
      reads conversationService.CartObjects(IdOf(state))
      requires AllPriced(conversationService.CartOf(IdOf(state)))
      ensures r == BuildResponse(conversationService, Welcome, Greeting, state)
    {
      BuildResponse(conversationService, Welcome, Greeting, state)
    }

    /** handleViewCart: the store's summary for the state's id. */
    function HandleViewCart(state: ConversationState): (r: AiOrderResponse)
      reads this, state, state.cartItems, conversationService, conversationService.conversations.Values
      reads conversationService.CartObjects(IdOf(state))
      requires AllPriced(conversationService.CartOf(IdOf(state)))
      ensures r.message.CartShown? && r.intent == ViewCart
      ensures r.message.summary.EmptyCart? <==> conversationService.CartOf(IdOf(state)) == []
    {
      BuildResponse(conversationService, CartShown(conversationService.CartSummary(IdOf(state))), ViewCart, state)
    }

    /** handleUpdateQuantity: not implemented by the system; it only answers. */
    function HandleUpdateQuantity(state: ConversationState): (r: AiOrderResponse)
      reads this, state, state.cartItems, conversationService, conversationService.conversations.Values
      reads conversationService.CartObjects(IdOf(state))
      requires AllPriced(conversationService.CartOf(IdOf(state)))
      ensures r.message == UpdateUnsupported && r.intent == UpdateQuantity
    {
      BuildResponse(conversationService, UpdateUnsupported, UpdateQuantity, state)
    }

    /** handleAskMenu and handleUnknown: the generated text, with no cart. */
    function Answer(text: string, intent: OrderIntent): (r: AiOrderResponse)
      ensures r.message == Generated(text) && r.intent == intent
      ensures r.cartItems == [] && r.totalAmount.None? && r.orderId.None?
    {
      AiOrderResponse(Generated(text), intent, [], None, None, false)
    }

    /** handleAddToCart: extract the items; with none, ask again; refuse the
      * whole list at the first unavailable product or non-positive quantity;
      * otherwise merge them all into the session's cart, each priced at its
      * product's current price. */
    method HandleAddToCart(message: string, state: ConversationState, menu: seq<Product>, now: int)
      returns (resp: AiOrderResponse)
      requires Current(conversationService, state) && AllPriced(conversationService.CartOf(IdOf(state)))
      modifies conversationService, conversationService.conversations.Values
      modifies conversationService.CartObjects(IdOf(state))
      ensures Current(conversationService, state) && AllPriced(conversationService.CartOf(IdOf(state)))
      ensures conversationService.conversations == old(conversationService.conversations)
      ensures resp.intent == AddToCart
      ensures AddStepFor(message, menu).Merge? ==>
        resp.message.Added? && state.lastActivity == Some(now)
        && conversationService.CartOf(IdOf(state))
           == MergeAll(old(conversationService.CartOf(IdOf(state))), AddStepFor(message, menu).lines)
      ensures !AddStepFor(message, menu).Merge? ==>
        resp.message == (if AddStepFor(message, menu).AskAgain? then AskWhatToOrder
                         else Refused(AddStepFor(message, menu).reason))
        && unchanged(old(conversationService.conversations.Values))
        && conversationService.CartOf(IdOf(state)) == old(conversationService.CartOf(IdOf(state)))
    {
      var key := IdOf(state);
      var step, items := PrepareAdd(message, menu);
      if step.AskAgain? {
        return BuildResponse(conversationService, AskWhatToOrder, AddToCart, state);
      } else if step.Refuse? {
        return BuildResponse(conversationService, Refused(step.reason), AddToCart, state);
      }
      MergeAllPriced(conversationService.CartOf(key), Lines(items));
      forall k, i | k in conversationService.conversations && i in items
        ensures i !in conversationService.conversations[k].cartItems
      {
        assert conversationService.conversations[k] in conversationService.conversations.Values;
        var j :| 0 <= j < |items| && items[j] == i;
      }
      var _ := conversationService.AddToCart(key, key, items, now);
      resp := BuildResponse(conversationService, Added(step.lines), AddToCart, state);
    }

    /** handleRemoveFromCart: remove the cart lines whose names the message
      * mentions; with none mentioned, ask again and change nothing. */
    method HandleRemoveFromCart(message: string, state: ConversationState, now: int)
      returns (resp: AiOrderResponse)
      requires Current(conversationService, state) && AllPriced(conversationService.CartOf(IdOf(state)))
      modifies conversationService, conversationService.conversations.Values
      ensures Current(conversationService, state) && AllPriced(conversationService.CartOf(IdOf(state)))
      ensures conversationService.conversations == old(conversationService.conversations)
      ensures resp.intent == RemoveFromCart
      ensures var names := MentionedNames(message, old(conversationService.CartOf(IdOf(state))));
        if names == [] then
          resp.message == AskWhatToRemove && unchanged(old(conversationService.conversations.Values))
          && conversationService.CartOf(IdOf(state)) == old(conversationService.CartOf(IdOf(state)))
        else
          resp.message == Removed && state.lastActivity == Some(now)
          && conversationService.CartOf(IdOf(state)) == RemoveNamed(old(conversationService.CartOf(IdOf(state))), names)
          && OthersKept(old(conversationService.Sessions()), conversationService.Sessions(), IdOf(state))
    {
      var key := IdOf(state);
      var names := ExtractProductNamesFromMessage(message, state);
      if names == [] {
        return BuildResponse(conversationService, AskWhatToRemove, RemoveFromCart, state);
      }
      RemoveNamedPriced(conversationService.CartOf(key), names);
      var _ := conversationService.RemoveFromCart(key, key, names, now);
      resp := BuildResponse(conversationService, Removed, RemoveFromCart, state);
    }

    /** handleCancel: the session is forgotten; the response still lists the
      * state object's lines, but the store's total for the id is now 0. */
    method HandleCancel(state: ConversationState) returns (resp: AiOrderResponse)
      requires Current(conversationService, state)
      modifies conversationService
      ensures conversationService.Valid() && unchanged(old(conversationService.conversations.Values))
      ensures conversationService.conversations == old(conversationService.conversations) - {IdOf(state)}
      ensures resp.message == Cancelled && resp.intent == Cancel
      ensures resp.cartItems == Dtos(old(conversationService.CartOf(IdOf(state))))
      ensures resp.totalAmount == Some(0.0)
    {
      var key := IdOf(state);
      conversationService.ClearConversation(key);
      resp := BuildResponse(conversationService, Cancelled, Cancel, state);
    }

    /** handleIntent: each intent to its own handler. */
    method HandleIntent(intent: OrderIntent, message: string, state: ConversationState, menu: seq<Product>,
                        generated: string, placed: Option<PlacedOrder>, now: int)
      returns (resp: AiOrderResponse, sent: Option<OrderRequest>)
      requires Current(conversationService, state) && AllPriced(conversationService.CartOf(IdOf(state)))
      modifies conversationService, conversationService.conversations.Values
      modifies conversationService.CartObjects(IdOf(state))
      ensures conversationService.Valid()
      ensures resp.intent == intent
      ensures sent.Some? ==> intent == ConfirmOrder
      ensures intent !in {AddToCart, RemoveFromCart, ConfirmOrder, Cancel} ==>
        conversationService.conversations == old(conversationService.conversations)
        && unchanged(old(conversationService.conversations.Values))
      ensures intent == AskMenu || intent == Unknown ==> resp == Answer(generated, intent)
      ensures intent == ConfirmOrder ==>
        (sent.Some? <==> old(conversationService.CartOf(IdOf(state))) != [])
        && (sent.Some? ==> sent == Some(ConfirmRequest(old(conversationService.CartOf(IdOf(state))), old(state.tableNumber))))
    {
      sent := None;
      match intent
      case Greeting => resp := HandleGreeting(state);
      case AskMenu => resp := Answer(generated, AskMenu);
      case AddToCart => resp := HandleAddToCart(message, state, menu, now);
      case ViewCart => resp := HandleViewCart(state);
      case RemoveFromCart => resp := HandleRemoveFromCart(message, state, now);
      case UpdateQuantity => resp := HandleUpdateQuantity(state);
      case ConfirmOrder => resp, sent := PlaceOrder(conversationService, state, placed);
      case Cancel => resp := HandleCancel(state);
      case Unknown => resp := Answer(generated, Unknown);
    }

    /** processCustomerMessage: open the session (and set its table), detect
      * the intent from the message and whether the session's cart is empty,
      * and hand the turn to that intent's handler. The menu, the model's text
      * and the outcome of placing an order are parameters. */
    method ProcessCustomerMessage(message: string, sessionId: Option<string>, tableNumber: Option<string>,
                                  freshId: string, freshId2: string, menu: seq<Product>,
                                  generated: string, placed: Option<PlacedOrder>, now: int)
      returns (resp: AiOrderResponse, sent: Option<OrderRequest>)
      requires conversationService.Valid() && !IsBlank(freshId) && !IsBlank(freshId2)
      requires AllPriced(conversationService.CartOf(SessionKey(sessionId.GetOr(""), freshId)))
      modifies conversationService, conversationService.conversations.Values
      modifies conversationService.CartObjects(SessionKey(sessionId.GetOr(""), freshId))
      ensures conversationService.Valid()
      ensures resp.intent == DetectIntent(message, old(conversationService.CartOf(SessionKey(sessionId.GetOr(""), freshId))) != [])
      ensures resp.intent == ConfirmOrder ==>
        (sent.Some? <==> old(conversationService.CartOf(SessionKey(sessionId.GetOr(""), freshId))) != [])
      ensures sent.Some? ==>
        resp.intent == ConfirmOrder
        && sent == Some(ConfirmRequest(old(conversationService.CartOf(SessionKey(sessionId.GetOr(""), freshId))),
             if tableNumber.Some? && !IsBlank(tableNumber.value) then tableNumber
             else old(conversationService.TableOf(SessionKey(sessionId.GetOr(""), freshId)))))
    {
      var state := OpenTurn(conversationService, sessionId, tableNumber, freshId, freshId2, now);
      assert conversationService.CartObjects(IdOf(state)) == state.cartItems;
      var intent := DetectIntent(message, state.cartItems != []);
      resp, sent := HandleIntent(intent, message, state, menu, generated, placed, now);
    }
  }
}
