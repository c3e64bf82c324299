/**
 * ConversationService: the in-memory store of chat sessions, a map from
 * session id to ConversationState, with the cart operations the ordering
 * engine runs against it. The clock and the random session id generator are
 * parameters (`now`, in whole seconds, and `freshId`).
 */
module Conversations {
  import opened Wrappers
  import opened Text
  import opened Catalog
  import opened Cart
  import opened Session
  import opened Lists

  /** SESSION_TIMEOUT_MINUTES. */
  const SessionTimeoutMinutes: int := 30

  /** Duration.between(from, to).toMinutes(): whole minutes, truncated toward zero. */
  function MinutesBetween(from: int, to: int): int {
    var seconds := to - from;
    if seconds >= 0 then seconds / 60 else -((-seconds) / 60)
  }

  /** The session key getOrCreateConversation uses: a null or blank id is
    * replaced by a generated one. */
  function SessionKey(sessionId: string, freshId: string): string {
    if IsBlank(sessionId) then freshId else sessionId
  }

  /** A session seen as values: its cart lines and its table number. */
  datatype SessionView = SessionView(cart: seq<Line>, table: Option<string>)

  /** Every session of `before` other than `key` is in `after`, unchanged. */
  ghost predicate OthersKept(before: map<string, SessionView>, after: map<string, SessionView>, key: string) {
    forall k :: k in before && k != key ==> k in after && after[k] == before[k]
  }

  /** What getCartSummary reports: the empty-cart message, or the lines and the total. */
  datatype Summary = EmptyCart | Listing(lines: seq<Line>, total: real)

  /** The invariant of the session store: each state is stored under its own
    * id, so distinct ids hold distinct states, and no cart lists the same line
    * object twice. */
  ghost predicate Store(conversations: map<string, ConversationState>)
    reads conversations.Values
  {
    forall k :: k in conversations ==>
      conversations[k].sessionId == Some(k) && Distinct(conversations[k].cartItems)
  }

  /** Storing, under a key not yet used, a state that carries that key as its
    * id and holds each line object once keeps the invariant. */
  lemma StorePut(conversations: map<string, ConversationState>, key: string, state: ConversationState)
    requires Store(conversations) && key !in conversations
    requires state.sessionId == Some(key) && Distinct(state.cartItems)
    ensures Store(conversations[key := state])
  {
  }

  /** Forgetting a session keeps the invariant. */
  lemma StoreRemove(conversations: map<string, ConversationState>, k: string)
    requires Store(conversations)
    ensures Store(conversations - {k})
  {
  }

  /** One round of addToCart's outer loop: the first cart line with the
    * incoming product id gains the incoming quantity, and the incoming note when
    * that is non-blank; with no such line the incoming object itself is appended. */
  method MergeInto(state: ConversationState, newItem: CartItem)
    requires Distinct(state.cartItems) && newItem !in state.cartItems
    modifies state, state.cartItems
    ensures Lines(state.cartItems) == MergeLine(old(Lines(state.cartItems)), old(newItem.Snapshot()))
    ensures state.cartItems == old(state.cartItems) || state.cartItems == old(state.cartItems) + [newItem]
    ensures Distinct(state.cartItems)
    ensures state.sessionId == old(state.sessionId) && state.tableNumber == old(state.tableNumber)
    ensures state.lastActivity == old(state.lastActivity) && state.metadata == old(state.metadata)
    ensures newItem.Snapshot() == old(newItem.Snapshot())
  {
    var cart := state.cartItems;
    ghost var before := Lines(cart);
    var id := newItem.product.id;
    var j := 0;
    while j < |cart|
      invariant 0 <= j <= |cart|
      invariant forall t :: 0 <= t < j ==> before[t].product.id != id
    {
      if cart[j].product.id == id {
        assert IndexOfId(before, id) == j;
        var existing := cart[j];
        existing.SetQuantity(existing.quantity + newItem.quantity);
        if newItem.note.Some? && !IsBlank(newItem.note.value) {
          existing.SetNote(newItem.note);
        }
        assert existing.Snapshot() == before[j].(quantity := before[j].quantity + newItem.quantity,
                                                 note := MergeNote(before[j].note, newItem.note));
        assert forall t :: 0 <= t < |cart| && t != j ==> cart[t].Snapshot() == before[t];
        return;
      }
      j := j + 1;
    }
    assert IndexOfId(before, id) == |before|;
    state.cartItems := cart + [newItem];
  }

  /** The outer loop of addToCart: the incoming objects merged into the
    * session's list one after another. An incoming object that was appended
    * can itself receive a later incoming line with the same product id. */
  method MergeAllInto(state: ConversationState, items: seq<CartItem>)
    requires Distinct(state.cartItems) && Distinct(items)
    requires forall i :: i in items ==> i !in state.cartItems
    modifies state, state.cartItems, items
    ensures Lines(state.cartItems) == MergeAll(old(Lines(state.cartItems)), old(Lines(items)))
    ensures Distinct(state.cartItems)
    ensures forall i :: i in state.cartItems ==> i in old(state.cartItems) || i in items
    ensures state.sessionId == old(state.sessionId) && state.tableNumber == old(state.tableNumber)
    ensures state.lastActivity == old(state.lastActivity) && state.metadata == old(state.metadata)
  {
    ghost var cart := state.cartItems;
    ghost var start := Lines(state.cartItems);
    ghost var incoming := Lines(items);
    for n := 0 to |items|
      invariant Lines(state.cartItems) == MergeAll(start, incoming[..n])
      invariant Distinct(state.cartItems)
      invariant forall i :: i in state.cartItems ==> i in cart || i in items
      invariant forall t :: n <= t < |items| ==> items[t] !in state.cartItems && items[t].Snapshot() == incoming[t]
      invariant state.sessionId == old(state.sessionId) && state.tableNumber == old(state.tableNumber)
      invariant state.lastActivity == old(state.lastActivity) && state.metadata == old(state.metadata)
    {
      assert forall k :: 0 <= k < |state.cartItems| ==> state.cartItems[k] in cart || state.cartItems[k] in items;
      label Merging:
      MergeInto(state, items[n]);
      forall t | n + 1 <= t < |items|
        ensures items[t] !in state.cartItems && items[t].Snapshot() == incoming[t]
      {
        assert items[t] != items[n];
        assert unchanged@Merging(items[t]);
      }
      MergeAllSnoc(start, incoming[..n], incoming[n]);
      PrefixSnoc(incoming, n);
    }
    assert incoming[..|items|] == incoming;
  }

  /** removeIf on a session's list: the objects whose product name matches
    * none of the names, in their order. */
  method RemoveIf(items: seq<CartItem>, names: seq<string>) returns (kept: seq<CartItem>)
    requires Distinct(items)
    ensures Lines(kept) == RemoveNamed(Lines(items), names)
    ensures Distinct(kept) && forall i :: i in kept ==> i in items
  {
    ghost var lines := Lines(items);
    kept := [];
    for t := 0 to |items|
      invariant Lines(kept) == RemoveNamed(lines[..t], names)
      invariant Distinct(kept) && forall i :: i in kept ==> i in items[..t]
    {
      RemoveStep(kept, lines, t, items[t], names);
      if !NamedIn(items[t].Snapshot(), names) {
        assert items[t] !in kept;
        kept := kept + [items[t]];
      }
      PrefixSnoc(items, t);
    }
    assert lines[..|items|] == lines;
  }

  /** The body of removeFromCart on one session's state: removeIf on its
    * list, then the activity stamp. */
  method RemoveFrom(state: ConversationState, names: seq<string>, now: int)
    requires Distinct(state.cartItems)
    modifies state
    ensures Lines(state.cartItems) == RemoveNamed(old(Lines(state.cartItems)), names)
    ensures Distinct(state.cartItems)
    ensures state.sessionId == old(state.sessionId) && state.tableNumber == old(state.tableNumber)
    ensures state.lastActivity == Some(now)
  {
    var kept := RemoveIf(state.cartItems, names);
    state.cartItems := kept;
    state.UpdateActivity(now);
  }

  /** One round of the removeIf walk keeps its invariant. */
  lemma RemoveStep(kept: seq<CartItem>, lines: seq<Line>, t: nat, x: CartItem, names: seq<string>)
    requires t < |lines| && lines[t] == x.Snapshot()
    requires Lines(kept) == RemoveNamed(lines[..t], names)
    ensures !NamedIn(x.Snapshot(), names) ==> Lines(kept + [x]) == RemoveNamed(lines[..t + 1], names)
    ensures NamedIn(x.Snapshot(), names) ==> Lines(kept) == RemoveNamed(lines[..t + 1], names)
  {
    RemoveNamedSnoc(lines[..t], lines[t], names);
    PrefixSnoc(lines, t);
    LinesSnoc(kept, x);
  }

  class ConversationService {
    var conversations: map<string, ConversationState>

    ghost predicate Valid()
      reads this, conversations.Values
    {
      Store(conversations)
    }

    /** The line objects of a session's cart; an unknown session has none. */
    function CartObjects(sessionId: string): seq<CartItem>
      reads this, conversations.Values
    {
      if sessionId in conversations then conversations[sessionId].cartItems else []
    }

    /** The lines of a session's cart, as values. */
    function CartOf(sessionId: string): seq<Line>
      reads this, conversations.Values, CartObjects(sessionId)
    {
      Lines(CartObjects(sessionId))
    }

    /** The table number of a session; an unknown session has none. */
    function TableOf(sessionId: string): Option<string>
      reads this, conversations.Values
    {
      if sessionId in conversations then conversations[sessionId].tableNumber else None
    }

    /** The cart lines of every session, as objects. */
    ghost function AllCartObjects(): set<CartItem>
      reads this, conversations.Values
    {
      set k, i | k in conversations && i in conversations[k].cartItems :: i
    }

    /** The store as values: each session's cart lines and table number. */
    ghost function Sessions(): map<string, SessionView>
      reads this, conversations.Values, AllCartObjects()
    {
      map k | k in conversations ::
        assert forall i | i in CartObjects(k) :: i in AllCartObjects();
        SessionView(CartOf(k), TableOf(k))
    }

    /** A step that changes none of the store's objects keeps every
      * session's cart and table. */
    twostate lemma SessionsKept()
      requires unchanged(this) && unchanged(old(conversations.Values))
      requires forall k :: k in old(conversations) ==> unchanged(old(conversations[k].cartItems))
      ensures Sessions() == old(Sessions())
    {
    }

    constructor ()
      ensures conversations == map[] && Valid()
    {
      conversations := map[];
    }

    /** getOrCreateConversation: the stored state for the key, or a new empty
      * one stored under it. */
    method GetOrCreate(sessionId: string, freshId: string, now: int) returns (state: ConversationState)
      requires Valid()
      modifies this
      ensures Valid()
      ensures var key := SessionKey(sessionId, freshId);
        key in conversations && state == conversations[key]
        && conversations == old(conversations)[key := state]
      ensures SessionKey(sessionId, freshId) in old(conversations) ==>
        conversations == old(conversations)
      ensures SessionKey(sessionId, freshId) !in old(conversations) ==>
        fresh(state) && state.sessionId == Some(SessionKey(sessionId, freshId))
        && state.cartItems == [] && state.tableNumber.None? && state.lastActivity == Some(now)
        && state.metadata == map[]
    {
      var key := SessionKey(sessionId, freshId);
      if key in conversations {
        state := conversations[key];
      } else {
        state := new ConversationState.WithId(key, now);
        state.SetLastActivity(Some(now));
        StorePut(conversations, key, state);
        conversations := conversations[key := state];
      }
    }

    /** addToCart: each incoming line, in order, is merged into the session's
      * cart (the first line with its product id gains its quantity, and its
      * note when that is non-blank) or appended as the same object; then the
      * session's activity time is stamped. The map itself changes only at the
      * session's key. */
    method AddToCart(sessionId: string, freshId: string, items: seq<CartItem>, now: int)
      returns (state: ConversationState)
      requires Valid() && Distinct(items)
      requires forall k, i :: k in conversations && i in items ==> i !in conversations[k].cartItems
      modifies this, conversations.Values, CartObjects(SessionKey(sessionId, freshId)), items
      ensures Valid()
      ensures var key := SessionKey(sessionId, freshId);
        key in conversations && state == conversations[key]
        && conversations == old(conversations)[key := state]
      ensures SessionKey(sessionId, freshId) in old(conversations) ==> conversations == old(conversations)
      ensures CartOf(SessionKey(sessionId, freshId))
        == MergeAll(old(CartOf(SessionKey(sessionId, freshId))), old(Lines(items)))
      ensures TableOf(SessionKey(sessionId, freshId)) == old(TableOf(SessionKey(sessionId, freshId)))
      ensures state.lastActivity == Some(now)
    {
      var key := SessionKey(sessionId, freshId);
      state := GetOrCreate(sessionId, freshId, now);
      assert key in old(conversations) ==> old(conversations)[key] in old(conversations).Values;
      ghost var before := Lines(state.cartItems);
      assert before == old(CartOf(key));
      label Merging:
      MergeAllInto(state, items);
      state.UpdateActivity(now);
      forall k | k in conversations
        ensures conversations[k].sessionId == Some(k) && Distinct(conversations[k].cartItems)
      {
        if k != key {
          assert conversations[k] != state;
          assert unchanged@Merging(conversations[k]);
        }
      }
      assert CartOf(key) == MergeAll(before, old(Lines(items)));
    }

    /** removeFromCart: the session's cart loses exactly the lines whose product
      * name equals one of the names ignoring case; then the activity time is
      * stamped. The map itself changes only at the session's key, and every
      * other session keeps its cart and table. */
    method RemoveFromCart(sessionId: string, freshId: string, names: seq<string>, now: int)
      returns (state: ConversationState)
      requires Valid()
      modifies this, conversations.Values
      ensures Valid()
      ensures var key := SessionKey(sessionId, freshId);
        key in conversations && state == conversations[key]
        && conversations == old(conversations)[key := state]
      ensures SessionKey(sessionId, freshId) in old(conversations) ==> conversations == old(conversations)
      ensures CartOf(SessionKey(sessionId, freshId))
        == RemoveNamed(old(CartOf(SessionKey(sessionId, freshId))), names)
      ensures TableOf(SessionKey(sessionId, freshId)) == old(TableOf(SessionKey(sessionId, freshId)))
      ensures state.lastActivity == Some(now)
      ensures OthersKept(old(Sessions()), Sessions(), SessionKey(sessionId, freshId))
    {
      var key := SessionKey(sessionId, freshId);
      state := GetOrCreate(sessionId, freshId, now);
      assert key in old(conversations) ==> old(conversations)[key] in old(conversations).Values;
      ghost var before := Lines(state.cartItems);
      assert before == old(CartOf(key));
      label Removing:
      RemoveFrom(state, names, now);
      forall k | k in conversations
        ensures conversations[k].sessionId == Some(k) && Distinct(conversations[k].cartItems)
      {
        if k != key {
          assert conversations[k] != state;
          assert unchanged@Removing(conversations[k]);
        }
      }
      forall k | k in old(conversations) && k != key
        ensures CartOf(k) == old(CartOf(k)) && TableOf(k) == old(TableOf(k))
      {
        assert conversations[k] == old(conversations[k]) != state;
        assert unchanged@Removing(conversations[k]);
      }
      assert CartOf(key) == RemoveNamed(before, names);
    }

    /** setTableNumber: the session's table number is set and its activity
      * time stamped; its cart is untouched. */
    method SetTableNumber(sessionId: string, freshId: string, table: Option<string>, now: int)
      requires Valid()
      modifies this
      modifies if SessionKey(sessionId, freshId) in conversations then {conversations[SessionKey(sessionId, freshId)]} else {}
      ensures Valid()
      ensures var key := SessionKey(sessionId, freshId);
        key in conversations && conversations == old(conversations)[key := conversations[key]]
        && conversations[key].tableNumber == table && conversations[key].lastActivity == Some(now)
      ensures SessionKey(sessionId, freshId) in old(conversations) ==> conversations == old(conversations)
      ensures SessionKey(sessionId, freshId) !in old(conversations) ==> fresh(conversations[SessionKey(sessionId, freshId)])
      ensures CartObjects(SessionKey(sessionId, freshId)) == old(CartObjects(SessionKey(sessionId, freshId)))
      ensures CartOf(SessionKey(sessionId, freshId)) == old(CartOf(SessionKey(sessionId, freshId)))
    {
      var key := SessionKey(sessionId, freshId);
      var state := GetOrCreate(sessionId, freshId, now);
      assert key in old(conversations) ==> old(conversations)[key] in old(conversations).Values;
      label Setting:
      state.SetTableNumber(table);
      state.UpdateActivity(now);
      forall k | k in conversations
        ensures conversations[k].sessionId == Some(k) && Distinct(conversations[k].cartItems)
      {
        if k != key {
          assert conversations[k] != state;
          assert unchanged@Setting(conversations[k]);
        }
      }
    }

    /** getCart: a copy of the session's list (the same line objects); an
      * unknown id gives an empty list and creates nothing. */
    method GetCart(sessionId: string) returns (r: seq<CartItem>)
      ensures sessionId !in conversations ==> r == []
      ensures sessionId in conversations ==> r == conversations[sessionId].cartItems
      ensures Lines(r) == CartOf(sessionId)
    {
      if sessionId !in conversations {
        return [];
      }
      r := conversations[sessionId].cartItems;
    }

    /** getCartTotal: the sum of the line subtotals, 0 for an unknown or empty
      * session. A line without a price makes Java throw. */
    function CartTotal(sessionId: string): (r: real)
      reads this, conversations.Values, CartObjects(sessionId)
      requires AllPriced(CartOf(sessionId))
      ensures r == Total(CartOf(sessionId))
    {
      if sessionId !in conversations || conversations[sessionId].cartItems == [] then 0.0
      else Total(Lines(conversations[sessionId].cartItems))
    }

    /** getCartSummary: the empty-cart message exactly when there is no line. */
    function CartSummary(sessionId: string): (r: Summary)
      reads this, conversations.Values, CartObjects(sessionId)
      requires AllPriced(CartOf(sessionId))
      ensures r.EmptyCart? <==> CartOf(sessionId) == []
      ensures r.Listing? ==> r.lines == CartOf(sessionId) && r.total == Total(CartOf(sessionId))
    {
      if sessionId !in conversations || conversations[sessionId].cartItems == [] then EmptyCart
      else Listing(Lines(conversations[sessionId].cartItems), CartTotal(sessionId))
    }

    /** clearConversation: forgets exactly this session. */
    method ClearConversation(sessionId: string)
      requires Valid()
      modifies this
      ensures Valid()
      ensures conversations == old(conversations) - {sessionId}
    {
      StoreRemove(conversations, sessionId);
      conversations := conversations - {sessionId};
    }

    /** The session has been idle too long, or never recorded any activity. */
    predicate Expired(state: ConversationState, now: int)
      reads state
    {
      state.lastActivity.None? || MinutesBetween(state.lastActivity.value, now) > SessionTimeoutMinutes
    }

    /** cleanupExpiredSessions: removes exactly the expired sessions. */
    method CleanupExpiredSessions(now: int)
      requires Valid()
      modifies this
      ensures Valid()
      ensures conversations.Keys == set k | k in old(conversations) && !Expired(old(conversations)[k], now)
      ensures forall k :: k in conversations ==> conversations[k] == old(conversations)[k]
    {
      var all := conversations;
      var kept := all;
      var pending := all.Keys;
      while pending != {}
        invariant pending <= kept.Keys <= all.Keys
        invariant forall k :: k in kept ==> kept[k] == all[k]
        invariant forall k :: k in all && k !in pending ==> (k in kept <==> !Expired(all[k], now))
        invariant Store(kept)
        decreases pending
      {
        var k :| k in pending;
        if Expired(kept[k], now) {
          StoreRemove(kept, k);
          kept := kept - {k};
        }
        pending := pending - {k};
      }
      conversations := kept;
    }
  }
}
