/**
 * AiOrderTools: the functions the language model may call during a turn of
 * the agent. Each takes its arguments as the model supplied them (any of them
 * may be null) and answers with a reply; addToCart and removeFromCart change
 * the session store. The menu search is a collaborator: a function from a
 * query and a result count to the products found, best first.
 */
module Tools {
  import opened Wrappers
  import opened Text
  import opened Catalog
  import opened Cart
  import opened Conversations

  /** The argument records; None stands for a null component. */
  datatype AddToCartRequest = AddToCartRequest(itemName: Option<string>, quantity: Option<int>, sessionId: Option<string>)
  datatype RemoveFromCartRequest = RemoveFromCartRequest(itemName: Option<string>, sessionId: Option<string>)

  /** What a tool answers (the wording itself is not modelled). */
  datatype ToolReply =
    | AskItemName
    | SessionError
    | MenuPrompt
    | NoMenuMatch(query: string)
    | MenuListing(products: seq<Product>)
    | NotFound(itemName: string)
    | SoldOut(name: string)
    | AddedLine(quantity: int, name: string, subtotal: real)
    | EmptyCartReply
    | CartListing(summary: Summary)
    | NotInCart(itemName: string)
    | RemovedNames(names: seq<string>)

  /** The wording of three replies, with the formatted numbers and the names
    * as given: a line added, the cart empty, lines removed (names joined by ", "). */
  function AddedText(quantity: string, name: string, price: string): string {
    "✅ Em đã thêm " + quantity + " " + name + " vào giỏ hàng (Giá: " + price + " VNĐ). " + "Anh/chị muốn thêm món nữa không ạ?"
  }

  const EmptyCartText: string := "Giỏ hàng của anh/chị đang trống. " + "Anh/chị muốn xem menu không ạ?"

  function RemovedText(names: string): string {
    "✅ Em đã xóa '" + names + "' khỏi giỏ hàng. " + "Anh/chị muốn xem lại giỏ hàng không ạ?"
  }

  /** A null or blank argument. */
  predicate NullOrBlank(s: Option<string>) {
    s.None? || IsBlank(s.value)
  }

  /** The quantity addToCart uses: a null one is 1, and so is a non-positive one. */
  function ToolQuantity(q: Option<int>): (r: int)
    ensures r >= 1
    ensures q.Some? && q.value > 0 ==> r == q.value
    ensures q.None? || q.value <= 0 ==> r == 1
  {
    var given := q.GetOr(1);
    if given <= 0 then 1 else given
  }

  /** The cart name matches the query when either lower-cased string contains the other. */
  predicate NameMatches(query: string, name: string) {
    Contains(Lower(name), Lower(query)) || Contains(Lower(query), Lower(name))
  }

  /** The names removeFromCart collects: one per cart line that matches, in cart order. */
  function MatchingNames(query: string, cart: seq<Line>): seq<string>
    decreases |cart|
  {
    if cart == [] then []
    else
      var last := cart[|cart| - 1];
      MatchingNames(query, cart[..|cart| - 1]) + (if NameMatches(query, last.product.name) then [last.product.name] else [])
  }

  /** A name is collected exactly when some line carries it and it matches. */
  lemma {:induction false} MatchingNamesSpec(query: string, cart: seq<Line>)
    ensures forall n :: n in MatchingNames(query, cart) <==>
      (NameMatches(query, n) && exists i :: 0 <= i < |cart| && cart[i].product.name == n)
    decreases |cart|
  {
    if cart != [] {
      var init := cart[..|cart| - 1];
      MatchingNamesSpec(query, init);
      assert forall i :: 0 <= i < |init| ==> init[i] == cart[i];
      forall n | NameMatches(query, n) && (exists i :: 0 <= i < |cart| && cart[i].product.name == n)
        ensures n in MatchingNames(query, cart)
      {
        var i :| 0 <= i < |cart| && cart[i].product.name == n;
        if i < |init| {
          assert init[i].product.name == n;
        }
      }
    }
  }

  /** Removing the collected names takes out exactly the lines that match the
    * query; since the store compares names ignoring case and the match only
    * looks at lower-cased names, no other line goes with them. */
  lemma RemoveMatching(query: string, cart: seq<Line>)
    ensures forall l :: l in RemoveNamed(cart, MatchingNames(query, cart)) <==>
      l in cart && !NameMatches(query, l.product.name)
  {
    var names := MatchingNames(query, cart);
    MatchingNamesSpec(query, cart);
    forall l | l in cart ensures NamedIn(l, names) <==> NameMatches(query, l.product.name) {
      if NameMatches(query, l.product.name) {
        assert l.product.name in names;
        var k :| 0 <= k < |names| && names[k] == l.product.name;
        assert EqualsIgnoreCase(l.product.name, names[k]);
      }
      if NamedIn(l, names) {
        var k :| 0 <= k < |names| && EqualsIgnoreCase(l.product.name, names[k]);
        assert names[k] in names;
        EqualsIgnoreCaseIsLowerEquality(l.product.name, names[k]);
      }
    }
  }

  /** The line addToCart adds, if any: the top search hit for a non-blank
    * name, when there is one and it is available, with the effective
    * quantity, no note and the product's price as the snapshot. */
  function AddedLineFor(request: AddToCartRequest, search: (string, int) -> seq<Product>): Option<Line> {
    if NullOrBlank(request.itemName) || NullOrBlank(request.sessionId) then None
    else
      var hits := search(request.itemName.value, 1);
      if hits == [] || !hits[0].available then None
      else Some(Line(hits[0], ToolQuantity(request.quantity), None, Some(hits[0].price)))
  }

  /** The reply of addToCart, from the request and the search alone. */
  function AddOutcome(request: AddToCartRequest, search: (string, int) -> seq<Product>): (r: ToolReply)
    ensures r.AddedLine? <==> AddedLineFor(request, search).Some?
    ensures r.AddedLine? ==>
      var line := AddedLineFor(request, search).value;
      r == AddedLine(line.quantity, line.product.name, LineSubtotal(line)) && line.quantity >= 1
  {
    if NullOrBlank(request.itemName) then AskItemName
    else if NullOrBlank(request.sessionId) then SessionError
    else
      var hits := search(request.itemName.value, 1);
      if hits == [] then NotFound(request.itemName.value)
      else if !hits[0].available then SoldOut(hits[0].name)
      else
        var quantity := ToolQuantity(request.quantity);
        AddedLine(quantity, hits[0].name, LineSubtotal(Line(hits[0], quantity, None, Some(hits[0].price))))
  }

  /** The session's cart after addToCart. */
  function CartAfterAdd(cart: seq<Line>, request: AddToCartRequest, search: (string, int) -> seq<Product>): seq<Line> {
    match AddedLineFor(request, search)
    case Some(line) => MergeAll(cart, [line])
    case None => cart
  }

  /** The reply of removeFromCart, from the request and the session's cart. */
  function RemoveOutcome(request: RemoveFromCartRequest, cart: seq<Line>): ToolReply {
    if NullOrBlank(request.itemName) then AskItemName
    else if NullOrBlank(request.sessionId) then SessionError
    else
      var names := MatchingNames(request.itemName.value, cart);
      if names == [] then NotInCart(request.itemName.value) else RemovedNames(names)
  }

  /** The session's cart after removeFromCart. */
  function CartAfterRemove(cart: seq<Line>, request: RemoveFromCartRequest): seq<Line> {
    match RemoveOutcome(request, cart)
    case RemovedNames(names) => RemoveNamed(cart, names)
    case _ => cart
  }

  /** removeFromCart keeps exactly the lines whose name does not match the
    * query, and, when it refuses the arguments, all of them. */
  lemma RemoveKeepsUnmatched(request: RemoveFromCartRequest, cart: seq<Line>)
    ensures forall l :: l in CartAfterRemove(cart, request) <==>
      l in cart
      && (NullOrBlank(request.itemName) || NullOrBlank(request.sessionId)
          || !NameMatches(request.itemName.value, l.product.name))
  {
    if !NullOrBlank(request.itemName) && !NullOrBlank(request.sessionId) {
      var query := request.itemName.value;
      MatchingNamesSpec(query, cart);
      RemoveMatching(query, cart);
      if MatchingNames(query, cart) == [] {
        forall l | l in cart ensures !NameMatches(query, l.product.name) {
          var i :| 0 <= i < |cart| && cart[i] == l;
          assert !(l.product.name in MatchingNames(query, cart));
        }
      }
    }
  }

  /** A cart of lines with positive prices and quantities has a positive total. */
  lemma {:induction false} PositiveTotal(cart: seq<Line>)
    requires AllPriced(cart)
    requires forall i :: 0 <= i < |cart| ==> cart[i].price.value > 0.0 && cart[i].quantity > 0
    ensures cart != [] ==> Total(cart) > 0.0
    ensures cart == [] ==> Total(cart) == 0.0
    decreases |cart|
  {
    if cart != [] {
      PositiveTotal(cart[1..]);
      assert LineSubtotal(cart[0]) > 0.0 by {
        assert cart[0].quantity as real >= 1.0;
      }
    }
  }

  class AiOrderTools {
    const conversationService: ConversationService

    constructor (conversationService: ConversationService)
      ensures this.conversationService == conversationService
    {
      this.conversationService := conversationService;
    }

    /** getMenu: a blank query asks what to look for; otherwise the top five
      * search hits, or a not-found reply when there are none. */
    method GetMenu(query: Option<string>, search: (string, int) -> seq<Product>) returns (r: ToolReply)
      ensures NullOrBlank(query) ==> r == MenuPrompt
      ensures !NullOrBlank(query) && search(query.value, 5) == [] ==> r == NoMenuMatch(query.value)
      ensures !NullOrBlank(query) && search(query.value, 5) != [] ==> r == MenuListing(search(query.value, 5))
      ensures r.MenuPrompt? || r.NoMenuMatch? || r.MenuListing?
    {
      if NullOrBlank(query) {
        return MenuPrompt;
      }
      var products := search(query.value, 5);
      if products == [] {
        return NoMenuMatch(query.value);
      }
      return MenuListing(products);
    }

    /** addToCart: after the argument checks, the top search hit is added, if
      * it is available, as one new line: the effective quantity, no note, and
      * the product's price as the snapshot. Every refusal leaves the store as
      * it was. */
    method AddToCart(request: AddToCartRequest, search: (string, int) -> seq<Product>, now: int)
      returns (r: ToolReply)
      requires conversationService.Valid()
      modifies conversationService, conversationService.conversations.Values
      modifies conversationService.CartObjects(request.sessionId.GetOr(""))
      ensures conversationService.Valid()
      ensures r == AddOutcome(request, search)
      ensures !r.AddedLine? ==>
        conversationService.conversations == old(conversationService.conversations)
        && unchanged(old(conversationService.conversations.Values))
        && unchanged(old(conversationService.CartObjects(request.sessionId.GetOr(""))))
      ensures forall k :: k in old(conversationService.conversations) ==>
        k in conversationService.conversations && conversationService.conversations[k] == old(conversationService.conversations)[k]
      ensures !NullOrBlank(request.sessionId) ==>
        conversationService.CartOf(request.sessionId.value)
        == CartAfterAdd(old(conversationService.CartOf(request.sessionId.value)), request, search)
      ensures !NullOrBlank(request.sessionId) && AllPriced(old(conversationService.CartOf(request.sessionId.value))) ==>
        AllPriced(conversationService.CartOf(request.sessionId.value))
      ensures conversationService.TableOf(request.sessionId.GetOr("")) == old(conversationService.TableOf(request.sessionId.GetOr("")))
    {
      if NullOrBlank(request.itemName) {
        return AskItemName;
      }
      var itemName := request.itemName.value;
      var quantity := ToolQuantity(request.quantity);
      if NullOrBlank(request.sessionId) {
        return SessionError;
      }
      var sessionId := request.sessionId.value;
      var products := search(itemName, 1);
      if products == [] {
        return NotFound(itemName);
      }
      var product := products[0];
      if !product.available {
        return SoldOut(product.name);
      }
      var subtotal := AddTopHit(sessionId, product, quantity, now);
      r := AddedLine(quantity, product.name, subtotal);
    }

    /** The store half of addToCart: one new line object for the product, with
      * no note and the product's price as the snapshot, merged into the
      * session's cart (creating the session when it is missing). */
    method AddTopHit(sessionId: string, product: Product, quantity: int, now: int) returns (subtotal: real)
      requires conversationService.Valid() && !IsBlank(sessionId)
      modifies conversationService, conversationService.conversations.Values
      modifies conversationService.CartObjects(sessionId)
      ensures conversationService.Valid()
      ensures subtotal == LineSubtotal(Line(product, quantity, None, Some(product.price)))
      ensures forall k :: k in old(conversationService.conversations) ==>
        k in conversationService.conversations && conversationService.conversations[k] == old(conversationService.conversations)[k]
      ensures sessionId in conversationService.conversations
      ensures conversationService.CartOf(sessionId)
        == MergeAll(old(conversationService.CartOf(sessionId)), [Line(product, quantity, None, Some(product.price))])
      ensures AllPriced(old(conversationService.CartOf(sessionId))) ==> AllPriced(conversationService.CartOf(sessionId))
      ensures conversationService.TableOf(sessionId) == old(conversationService.TableOf(sessionId))
    {
      var item := new CartItem(product, quantity, None, Some(product.price));
      subtotal := item.Subtotal();
      ghost var before := conversationService.CartOf(sessionId);
      ghost var incoming := [Line(product, quantity, None, Some(product.price))];
      assert Lines([item]) == incoming;
      forall k | k in conversationService.conversations
        ensures item !in conversationService.conversations[k].cartItems
      {
        assert conversationService.conversations[k] in conversationService.conversations.Values;
      }
      assert SessionKey(sessionId, sessionId) == sessionId;
      var _ := conversationService.AddToCart(sessionId, sessionId, [item], now);
      assert conversationService.CartOf(sessionId) == MergeAll(before, incoming);
      if AllPriced(before) {
        MergeAllPriced(before, incoming);
      }
    }

    /** viewCart: the cart summary, or the empty-cart reply when the store's
      * total for the session is 0. */
    function ViewCart(sessionId: Option<string>): (r: ToolReply)
      reads this, conversationService, conversationService.conversations.Values
      reads conversationService.CartObjects(sessionId.GetOr(""))
      requires !NullOrBlank(sessionId) ==> AllPriced(conversationService.CartOf(sessionId.GetOr("")))
      ensures NullOrBlank(sessionId) ==> r == SessionError
      ensures !NullOrBlank(sessionId) ==>
        (r == EmptyCartReply <==> Total(conversationService.CartOf(sessionId.value)) == 0.0)
      ensures !NullOrBlank(sessionId) && r != EmptyCartReply ==>
        r == CartListing(Listing(conversationService.CartOf(sessionId.value), Total(conversationService.CartOf(sessionId.value))))
    {
      if NullOrBlank(sessionId) then SessionError
      else
        var summary := conversationService.CartSummary(sessionId.value);
        var total := conversationService.CartTotal(sessionId.value);
        if total == 0.0 then EmptyCartReply
        else CartListing(summary)
    }

    /** An empty cart always gets the empty-cart reply; a cart of lines priced
      * above zero never does. */
    lemma ViewCartEmptyExactly(sessionId: string)
      requires !IsBlank(sessionId)
      requires AllPriced(conversationService.CartOf(sessionId))
      requires forall i :: 0 <= i < |conversationService.CartOf(sessionId)| ==>
        conversationService.CartOf(sessionId)[i].price.value > 0.0 && conversationService.CartOf(sessionId)[i].quantity > 0
      ensures ViewCart(Some(sessionId)) == EmptyCartReply <==> conversationService.CartOf(sessionId) == []
    {
      PositiveTotal(conversationService.CartOf(sessionId));
    }

    /** The loop of removeFromCart over the copied cart. */
    method CollectMatchingNames(query: string, cartItems: seq<CartItem>) returns (names: seq<string>)
      ensures names == MatchingNames(query, Lines(cartItems))
    {
      ghost var lines := Lines(cartItems);
      names := [];
      var lowerQuery := Lower(query);
      for t := 0 to |cartItems|
        invariant names == MatchingNames(query, lines[..t])
      {
        assert lines[..t + 1][..t] == lines[..t];
        var name := cartItems[t].product.name;
        if Contains(Lower(name), lowerQuery) || Contains(lowerQuery, Lower(name)) {
          names := names + [name];
        }
      }
      assert lines[..|cartItems|] == lines;
    }

    /** removeFromCart: after the argument checks, the cart lines whose name
      * matches the query are removed; with none, nothing changes (and no
      * session is created). */
    method RemoveFromCart(request: RemoveFromCartRequest, now: int) returns (r: ToolReply)
      requires conversationService.Valid()
      modifies conversationService, conversationService.conversations.Values
      ensures conversationService.Valid()
      ensures r == RemoveOutcome(request, old(conversationService.CartOf(request.sessionId.GetOr(""))))
      ensures conversationService.conversations == old(conversationService.conversations)
      ensures !r.RemovedNames? ==> unchanged(old(conversationService.conversations.Values))
      ensures !NullOrBlank(request.sessionId) ==>
        conversationService.CartOf(request.sessionId.GetOr(""))
        == CartAfterRemove(old(conversationService.CartOf(request.sessionId.GetOr(""))), request)
      ensures !NullOrBlank(request.sessionId) && AllPriced(old(conversationService.CartOf(request.sessionId.GetOr("")))) ==>
        AllPriced(conversationService.CartOf(request.sessionId.GetOr("")))
      ensures conversationService.TableOf(request.sessionId.GetOr("")) == old(conversationService.TableOf(request.sessionId.GetOr("")))
      ensures r.RemovedNames? ==> OthersKept(old(conversationService.Sessions()), conversationService.Sessions(), request.sessionId.GetOr(""))
    {
      if NullOrBlank(request.itemName) {
        return AskItemName;
      }
      var itemName := request.itemName.value;
      if NullOrBlank(request.sessionId) {
        return SessionError;
      }
      var names := RemoveMatchingLines(request.sessionId.value, itemName, now);
      if names == [] {
        return NotInCart(itemName);
      }
      r := RemovedNames(names);
    }

    /** The store half of removeFromCart: the names of the matching lines, and
      * those lines removed when there are any. */
    method RemoveMatchingLines(sessionId: string, itemName: string, now: int) returns (names: seq<string>)
      requires conversationService.Valid() && !IsBlank(sessionId)
      modifies conversationService, conversationService.conversations.Values
      ensures conversationService.Valid()
      ensures names == MatchingNames(itemName, old(conversationService.CartOf(sessionId)))
      ensures conversationService.conversations == old(conversationService.conversations)
      ensures names == [] ==>
        unchanged(old(conversationService.conversations.Values))
        && conversationService.CartOf(sessionId) == old(conversationService.CartOf(sessionId))
      ensures names != [] ==>
        conversationService.CartOf(sessionId) == RemoveNamed(old(conversationService.CartOf(sessionId)), names)
      ensures AllPriced(old(conversationService.CartOf(sessionId))) ==> AllPriced(conversationService.CartOf(sessionId))
      ensures conversationService.TableOf(sessionId) == old(conversationService.TableOf(sessionId))
      ensures names != [] ==> OthersKept(old(conversationService.Sessions()), conversationService.Sessions(), sessionId)
    {
      ghost var before := conversationService.CartOf(sessionId);
      var cartItems := conversationService.GetCart(sessionId);
      names := CollectMatchingNames(itemName, cartItems);
      if names == [] {
        return;
      }
      assert sessionId in conversationService.conversations;
      assert SessionKey(sessionId, sessionId) == sessionId;
      var _ := conversationService.RemoveFromCart(sessionId, sessionId, names, now);
      if AllPriced(before) {
        RemoveNamedPriced(before, names);
      }
    }
  }
}
