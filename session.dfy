/**
 * ConversationState: one chat session. Its cart list, table number and last
 * activity time are fields that the conversation store changes in place.
 * Times are whole seconds on the server clock, passed in by the caller.
 */
module Session {
  import opened Wrappers
  import opened Cart

  class ConversationState {
    /** None stands for a null id (the no-argument constructor). */
    var sessionId: Option<string>
    var cartItems: seq<CartItem>
    var tableNumber: Option<string>
    var lastActivity: Option<int>
    /** The metadata map; its values are opaque to the ordering engine. */
    var metadata: map<string, string>

    /** The no-argument constructor: empty cart and metadata, active now. */
    constructor (now: int)
      ensures sessionId.None? && cartItems == [] && tableNumber.None?
      ensures lastActivity == Some(now) && metadata == map[]
    {
      sessionId := None;
      cartItems := [];
      tableNumber := None;
      lastActivity := Some(now);
      metadata := map[];
    }

    /** The one-argument constructor: as the no-argument one, with the id set. */
    constructor WithId(id: string, now: int)
      ensures sessionId == Some(id) && cartItems == [] && tableNumber.None?
      ensures lastActivity == Some(now) && metadata == map[]
    {
      sessionId := Some(id);
      cartItems := [];
      tableNumber := None;
      lastActivity := Some(now);
      metadata := map[];
    }

    /** The cart as values. */
    function CartLines(): seq<Line>
      reads this, cartItems
    {
      Lines(cartItems)
    }

    method SetTableNumber(table: Option<string>)
      modifies this
      ensures tableNumber == table
      ensures sessionId == old(sessionId) && cartItems == old(cartItems)
      ensures lastActivity == old(lastActivity) && metadata == old(metadata)
    {
      tableNumber := table;
    }

    method SetLastActivity(t: Option<int>)
      modifies this
      ensures lastActivity == t
      ensures sessionId == old(sessionId) && cartItems == old(cartItems)
      ensures tableNumber == old(tableNumber) && metadata == old(metadata)
    {
      lastActivity := t;
    }

    /** updateActivity: stamps the current time and changes nothing else. */
    method UpdateActivity(now: int)
      modifies this
      ensures lastActivity == Some(now)
      ensures sessionId == old(sessionId) && cartItems == old(cartItems)
      ensures tableNumber == old(tableNumber) && metadata == old(metadata)
    {
      lastActivity := Some(now);
    }
  }
}
