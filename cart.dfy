/**
 * CartItem, the line of a chat session's cart: a product, a quantity, an
 * optional note and the price snapshot taken when the line was added. The
 * object is mutable; ConversationService changes its quantity and note in
 * place when a second order of the same product arrives.
 *
 * Next to the class, the value view of a cart (a sequence of Line values) and
 * the merge rule of addToCart stated on it.
 */
module Cart {
  import opened Wrappers
  import opened Text
  import opened Catalog
  import opened Lists

  /** The fields of one CartItem at one moment. */
  datatype Line = Line(product: Product, quantity: int, note: Option<string>, price: Option<real>)

  class CartItem {
    var product: Product
    var quantity: int
    var note: Option<string>
    /** The snapshot price; None stands for a null Double. */
    var price: Option<real>

    /** The four-argument constructor stores its arguments as given. */
    constructor (product: Product, quantity: int, note: Option<string>, price: Option<real>)
      ensures this.product == product && this.quantity == quantity
      ensures this.note == note && this.price == price
    {
      this.product := product;
      this.quantity := quantity;
      this.note := note;
      this.price := price;
    }

    /** The current fields as a value. */
    function Snapshot(): Line
      reads this
    {
      Line(product, quantity, note, price)
    }

    method SetProduct(p: Product)
      modifies this
      ensures Snapshot() == old(Snapshot()).(product := p)
    {
      product := p;
    }

    method SetQuantity(q: int)
      modifies this
      ensures Snapshot() == old(Snapshot()).(quantity := q)
    {
      quantity := q;
    }

    method SetNote(n: Option<string>)
      modifies this
      ensures Snapshot() == old(Snapshot()).(note := n)
    {
      note := n;
    }

    method SetPrice(p: Option<real>)
      modifies this
      ensures Snapshot() == old(Snapshot()).(price := p)
    {
      price := p;
    }

    /** getSubtotal: the snapshot price times the quantity. Unboxing a null
      * price throws, so the price must be present. */
    function Subtotal(): (r: real)
      reads this
      requires price.Some?
      ensures r == LineSubtotal(Snapshot())
    {
      price.value * quantity as real
    }
  }

  /** The subtotal of a line whose price is present. */
  function LineSubtotal(l: Line): real
    requires l.price.Some?
  {
    l.price.value * l.quantity as real
  }

  /** The cart objects are pairwise distinct. */
  predicate Distinct(items: seq<CartItem>) {
    forall i, j :: 0 <= i < j < |items| ==> items[i] != items[j]
  }

  /** The cart list as values, read from its objects. */
  function Lines(items: seq<CartItem>): (r: seq<Line>)
    reads items
    ensures |r| == |items| && forall i :: 0 <= i < |items| ==> r[i] == items[i].Snapshot()
  {
    seq(|items|, i reads items requires 0 <= i < |items| => items[i].Snapshot())
  }

  /** The value view of a list extended by one more object. */
  lemma LinesSnoc(items: seq<CartItem>, x: CartItem)
    ensures Lines(items + [x]) == Lines(items) + [x.Snapshot()]
  {
  }

  // ---------------------------------------------------------------------------
  // The merge rule of addToCart, on values.

  /** A note replaces the old one only when it is non-null and non-blank. */
  function MergeNote(old_: Option<string>, incoming: Option<string>): Option<string> {
    if incoming.Some? && !IsBlank(incoming.value) then incoming else old_
  }

  /** Index of the first line with this product id, or |cart| when none has it. */
  function IndexOfId(cart: seq<Line>, id: int): (r: nat)
    ensures r <= |cart|
    ensures forall j :: 0 <= j < r ==> cart[j].product.id != id
    ensures r < |cart| ==> cart[r].product.id == id
  {
    if cart == [] then 0
    else if cart[0].product.id == id then 0
    else 1 + IndexOfId(cart[1..], id)
  }

  /** One incoming line: added into the first line with its product id (sum of
    * quantities, note replaced only by a non-blank one), or appended. */
  function MergeLine(cart: seq<Line>, l: Line): seq<Line> {
    var j := IndexOfId(cart, l.product.id);
    if j < |cart| then
      cart[j := cart[j].(quantity := cart[j].quantity + l.quantity,
                         note := MergeNote(cart[j].note, l.note))]
    else cart + [l]
  }

  /** The incoming lines merged one after another, in order. */
  function MergeAll(cart: seq<Line>, incoming: seq<Line>): seq<Line>
    decreases |incoming|
  {
    if incoming == [] then cart
    else MergeAll(MergeLine(cart, incoming[0]), incoming[1..])
  }

  /** MergeAll over a list extended by one more line. */
  lemma {:induction false} MergeAllSnoc(cart: seq<Line>, incoming: seq<Line>, l: Line)
    ensures MergeAll(cart, incoming + [l]) == MergeLine(MergeAll(cart, incoming), l)
    decreases |incoming|
  {
    if incoming == [] {
      assert incoming + [l] == [l];
    } else {
      assert (incoming + [l])[1..] == incoming[1..] + [l];
      MergeAllSnoc(MergeLine(cart, incoming[0]), incoming[1..], l);
    }
  }

  /** At most one line per product id. */
  predicate UniqueIds(cart: seq<Line>) {
    forall i, j :: 0 <= i < j < |cart| ==> cart[i].product.id != cart[j].product.id
  }

  /** The line for a product id, when the cart has one. */
  predicate HasId(cart: seq<Line>, id: int) {
    exists i :: 0 <= i < |cart| && cart[i].product.id == id
  }

  /** What merging one line does: the cart keeps one line per id, no line
    * disappears or moves, no price snapshot or product changes, the line with
    * the incoming id gains its quantity, and the cart grows only for a new id. */
  lemma MergeLineSpec(cart: seq<Line>, l: Line)
    requires UniqueIds(cart)
    ensures var r := MergeLine(cart, l);
      && UniqueIds(r)
      && |cart| <= |r| <= |cart| + 1
      && (|r| == |cart| + 1 <==> !HasId(cart, l.product.id))
      && (forall i :: 0 <= i < |cart| ==> r[i].product == cart[i].product && r[i].price == cart[i].price)
      && (forall i :: 0 <= i < |cart| && cart[i].product.id != l.product.id ==> r[i] == cart[i])
      && (forall i :: 0 <= i < |cart| && cart[i].product.id == l.product.id ==>
            r[i].quantity == cart[i].quantity + l.quantity && r[i].note == MergeNote(cart[i].note, l.note))
      && (!HasId(cart, l.product.id) ==> r[|cart|] == l)
  {
    var j := IndexOfId(cart, l.product.id);
    if j == |cart| {
      assert !HasId(cart, l.product.id);
    } else {
      assert HasId(cart, l.product.id);
    }
  }

  /** Merging any list of lines never rewrites the product or the price
    * snapshot of a line already in the cart, never drops a line, and keeps a
    * cart with one line per id that way. */
  lemma {:induction false} MergeAllKeepsCart(cart: seq<Line>, incoming: seq<Line>)
    ensures var r := MergeAll(cart, incoming);
      && (UniqueIds(cart) ==> UniqueIds(r))
      && |cart| <= |r|
      && forall i :: 0 <= i < |cart| ==> r[i].product == cart[i].product && r[i].price == cart[i].price
    decreases |incoming|
  {
    if incoming != [] {
      var next := MergeLine(cart, incoming[0]);
      if UniqueIds(cart) {
        MergeLineSpec(cart, incoming[0]);
      }
      var j := IndexOfId(cart, incoming[0].product.id);
      assert |cart| <= |next| && forall i :: 0 <= i < |cart| ==> next[i].product == cart[i].product && next[i].price == cart[i].price;
      MergeAllKeepsCart(next, incoming[1..]);
    }
  }

  /** Merging priced lines into a priced cart leaves every line priced. */
  lemma {:induction false} MergeAllPriced(cart: seq<Line>, incoming: seq<Line>)
    requires AllPriced(cart) && AllPriced(incoming)
    ensures AllPriced(MergeAll(cart, incoming))
    decreases |incoming|
  {
    if incoming != [] {
      var next := MergeLine(cart, incoming[0]);
      assert AllPriced(next);
      MergeAllPriced(next, incoming[1..]);
    }
  }

  // ---------------------------------------------------------------------------
  // removeFromCart and getCartTotal, on values.

  /** The line's product name equals one of the names, ignoring case. */
  predicate NamedIn(l: Line, names: seq<string>) {
    exists k :: 0 <= k < |names| && EqualsIgnoreCase(l.product.name, names[k])
  }

  /** The lines that removeIf keeps, in order. */
  function RemoveNamed(cart: seq<Line>, names: seq<string>): (r: seq<Line>)
    ensures |r| <= |cart|
    ensures forall l :: l in r <==> l in cart && !NamedIn(l, names)
  {
    if cart == [] then []
    else (if NamedIn(cart[0], names) then [] else [cart[0]]) + RemoveNamed(cart[1..], names)
  }

  /** RemoveNamed over a cart extended by one more line. */
  lemma {:induction false} RemoveNamedSnoc(cart: seq<Line>, l: Line, names: seq<string>)
    ensures RemoveNamed(cart + [l], names) == RemoveNamed(cart, names) + (if NamedIn(l, names) then [] else [l])
    decreases |cart|
  {
    if cart == [] {
      assert [l][1..] == [];
    } else {
      assert (cart + [l])[1..] == cart[1..] + [l];
      RemoveNamedSnoc(cart[1..], l, names);
    }
  }

  /** Removing lines keeps the other lines in their order, and a cart with one
    * line per id still has one line per id. */
  lemma {:induction false} RemoveNamedKeepsOrder(cart: seq<Line>, names: seq<string>)
    ensures IsSubsequence(RemoveNamed(cart, names), cart)
    ensures UniqueIds(cart) ==> UniqueIds(RemoveNamed(cart, names))
    decreases |cart|
  {
    if cart != [] {
      RemoveNamedKeepsOrder(cart[1..], names);
      var rest := RemoveNamed(cart[1..], names);
      if UniqueIds(cart) {
        assert UniqueIds(cart[1..]);
        forall l | l in rest ensures l.product.id != cart[0].product.id {
          var k :| 0 < k < |cart| && cart[k] == l;
        }
      }
      if NamedIn(cart[0], names) {
        assert RemoveNamed(cart, names) == rest;
      } else {
        assert RemoveNamed(cart, names) == [cart[0]] + rest;
        assert RemoveNamed(cart, names)[1..] == rest;
      }
    }
  }

  /** Removing lines from a priced cart leaves it priced. */
  lemma RemoveNamedPriced(cart: seq<Line>, names: seq<string>)
    requires AllPriced(cart)
    ensures AllPriced(RemoveNamed(cart, names))
  {
    var r := RemoveNamed(cart, names);
    forall i | 0 <= i < |r| ensures r[i].price.Some? {
      assert r[i] in cart;
    }
  }

  /** Every line's price is present, so every subtotal is defined. */
  predicate AllPriced(cart: seq<Line>) {
    forall i :: 0 <= i < |cart| ==> cart[i].price.Some?
  }

  /** The sum of the subtotals. */
  function Total(cart: seq<Line>): real
    requires AllPriced(cart)
  {
    if cart == [] then 0.0 else LineSubtotal(cart[0]) + Total(cart[1..])
  }

  /** The total over two carts laid end to end. */
  lemma {:induction false} TotalAppend(a: seq<Line>, b: seq<Line>)
    requires AllPriced(a) && AllPriced(b)
    ensures AllPriced(a + b) && Total(a + b) == Total(a) + Total(b)
    decreases |a|
  {
    if a != [] {
      assert (a + b)[1..] == a[1..] + b;
      TotalAppend(a[1..], b);
    } else {
      assert a + b == b;
    }
  }
}
