/**
 * The cashier screen's cart (the browser POS). The page keeps one state
 * object: the cart lines, the line being edited in the item modal, the
 * selected table, the surcharge percent and the cash the customer handed
 * over. Clicking a menu card adds one unit, merging into a line of the same
 * product that has no note and has not been sent to the kitchen yet. The +/-
 * buttons and the item modal change a line in place. "Notify kitchen" marks
 * every line as sent once the pending order is saved. Checkout prepares the
 * order payload only when the cart is non-empty and the cash covers the
 * total.
 *
 * The DOM, printing, local storage and the server calls are left out. Whether
 * the pending-order save succeeded is a parameter, and so is the value the
 * price field parses to (None for NaN).
 */
module PosCart {
  import opened Wrappers
  import opened Lists
  import opened Extraction

  /** A product as a menu card hands it over: id, name, price and category. */
  datatype CardProduct = CardProduct(id: int, name: string, price: real, category: string)

  /** One cart line. A None priceOverride is a null one. */
  datatype CartLine = CartLine(
    id: int, name: string, category: string, unitPrice: real, quantity: int,
    note: string, notified: bool, priceOverride: Option<real>)

  /** The selected table, as far as the cart uses it. */
  datatype SelectedTable = SelectedTable(id: nat, name: string)

  /** What calculateTotals returns. */
  datatype Totals = Totals(subtotal: real, surcharge: real, total: real, change: real, percent: real)

  /** One line of the order payload. */
  datatype PayloadItem = PayloadItem(productId: int, quantity: int, price: real, note: string)

  /** The order payload: the table id (null for take-away), the money figures
    * and the items. The label and surcharge name texts are left out. */
  datatype Payload = Payload(
    tableId: Option<nat>, totalAmount: real, surchargePercent: real, surchargeAmount: real,
    customerCash: real, changeAmount: real, items: seq<PayloadItem>)

  /** What prepareCheckout hands to the receipt and to the order call. */
  datatype Prepared = Prepared(totals: Totals, payload: Payload)

  // ---------------------------------------------------------------------------
  // Prices and totals.

  /** effectivePrice: the override when there is one, otherwise the unit price. */
  function EffectivePrice(line: CartLine): (r: real)
    ensures line.priceOverride.None? ==> r == line.unitPrice
    ensures line.priceOverride.Some? ==> r == line.priceOverride.value
  {
    match line.priceOverride
    case Some(p) => p
    case None => line.unitPrice
  }

  function LineTotal(line: CartLine): real {
    EffectivePrice(line) * line.quantity as real
  }

  /** The sum of effective price times quantity over the lines. */
  function Subtotal(cart: seq<CartLine>): real {
    if cart == [] then 0.0 else Subtotal(cart[..|cart| - 1]) + LineTotal(cart[|cart| - 1])
  }

  /** The number of units in the cart: the summary's item count. */
  function ItemCount(cart: seq<CartLine>): int {
    if cart == [] then 0 else ItemCount(cart[..|cart| - 1]) + cart[|cart| - 1].quantity
  }

  lemma {:induction false} SubtotalAppend(a: seq<CartLine>, b: seq<CartLine>)
    ensures Subtotal(a + b) == Subtotal(a) + Subtotal(b)
    decreases |b|
  {
    if b == [] {
      assert a + b == a;
    } else {
      assert (a + b)[..|a + b| - 1] == a + b[..|b| - 1];
      SubtotalAppend(a, b[..|b| - 1]);
    }
  }

  lemma {:induction false} ItemCountAppend(a: seq<CartLine>, b: seq<CartLine>)
    ensures ItemCount(a + b) == ItemCount(a) + ItemCount(b)
    decreases |b|
  {
    if b == [] {
      assert a + b == a;
    } else {
      assert (a + b)[..|a + b| - 1] == a + b[..|b| - 1];
      ItemCountAppend(a, b[..|b| - 1]);
    }
  }

  /** A cart split around line i. */
  lemma SplitAt(cart: seq<CartLine>, i: nat)
    requires i < |cart|
    ensures Subtotal(cart) == Subtotal(cart[..i]) + LineTotal(cart[i]) + Subtotal(cart[i + 1..])
    ensures ItemCount(cart) == ItemCount(cart[..i]) + cart[i].quantity + ItemCount(cart[i + 1..])
  {
    assert cart == cart[..i] + [cart[i]] + cart[i + 1..];
    SubtotalAppend(cart[..i] + [cart[i]], cart[i + 1..]);
    SubtotalAppend(cart[..i], [cart[i]]);
    ItemCountAppend(cart[..i] + [cart[i]], cart[i + 1..]);
    ItemCountAppend(cart[..i], [cart[i]]);
  }

  /** Replacing line i changes the sums by the difference of the two lines. */
  lemma ReplaceLine(cart: seq<CartLine>, i: nat, line: CartLine)
    requires i < |cart|
    ensures Subtotal(cart[i := line]) == Subtotal(cart) - LineTotal(cart[i]) + LineTotal(line)
    ensures ItemCount(cart[i := line]) == ItemCount(cart) - cart[i].quantity + line.quantity
  {
    SplitAt(cart, i);
    SplitAt(cart[i := line], i);
    assert cart[i := line][..i] == cart[..i];
    assert cart[i := line][i + 1..] == cart[i + 1..];
  }

  /** Removing line i takes its share out of the sums. */
  lemma RemoveLine(cart: seq<CartLine>, i: nat)
    requires i < |cart|
    ensures Subtotal(cart[..i] + cart[i + 1..]) == Subtotal(cart) - LineTotal(cart[i])
    ensures ItemCount(cart[..i] + cart[i + 1..]) == ItemCount(cart) - cart[i].quantity
  {
    SplitAt(cart, i);
    SubtotalAppend(cart[..i], cart[i + 1..]);
    ItemCountAppend(cart[..i], cart[i + 1..]);
  }

  /** calculateTotals: the surcharge is percent of the subtotal, the total their
    * sum, and the change what the cash exceeds the total by, never negative. */
  function CalculateTotals(cart: seq<CartLine>, percent: real, cash: real): (t: Totals)
    ensures t.subtotal == Subtotal(cart) && t.percent == percent
    ensures t.surcharge == t.subtotal * percent / 100.0 && t.total == t.subtotal + t.surcharge
    ensures t.total == t.subtotal * (1.0 + percent / 100.0)
    ensures t.change >= 0.0
    ensures cash >= t.total ==> t.change == cash - t.total
    ensures cash < t.total ==> t.change == 0.0
  {
    var subtotal := Subtotal(cart);
    var surcharge := subtotal * percent / 100.0;
    var total := subtotal + surcharge;
    Totals(subtotal, surcharge, total, if cash - total > 0.0 then cash - total else 0.0, percent)
  }

  // ---------------------------------------------------------------------------
  // Adding a product.

  /** The line a product starts as: one unit at the card's price, no note, not
    * sent to the kitchen, no override. */
  function NewLine(p: CardProduct): CartLine {
    CartLine(p.id, p.name, p.category, p.price, 1, "", false, None)
  }

  /** addToCart merges only into a line of the same product with an empty note
    * that has not been sent to the kitchen. */
  predicate Mergeable(line: CartLine, id: int) {
    line.id == id && line.note == "" && !line.notified
  }

  /** findIndex of the first mergeable line, or |cart| when there is none. */
  function MergeIndex(cart: seq<CartLine>, id: int): (r: nat)
    ensures r <= |cart|
    ensures forall j :: 0 <= j < r ==> !Mergeable(cart[j], id)
    ensures r < |cart| ==> Mergeable(cart[r], id)
  {
    FirstIndex(cart, (line: CartLine) => Mergeable(line, id))
  }

  /** The cart after addToCart: one more unit on the first mergeable line, or a new line at the end. */
  function CartAfterAdd(cart: seq<CartLine>, p: CardProduct): seq<CartLine> {
    var i := MergeIndex(cart, p.id);
    if i < |cart| then cart[i := cart[i].(quantity := cart[i].quantity + 1)]
    else cart + [NewLine(p)]
  }

  /** addToCart adds exactly one unit. The unit is charged at the merged line's
    * effective price (its override, if it has one), or at the card's price
    * on a new line. Only the first mergeable line changes; with none, the cart
    * grows by the new line at the end. */
  lemma AddToCartSpec(cart: seq<CartLine>, p: CardProduct)
    ensures var r := CartAfterAdd(cart, p);
            var i := MergeIndex(cart, p.id);
            ItemCount(r) == ItemCount(cart) + 1
            && Subtotal(r) == Subtotal(cart) + (if i < |cart| then EffectivePrice(cart[i]) else p.price)
            && (i < |cart| <==> |r| == |cart|)
            && (i < |cart| ==> forall j :: 0 <= j < |cart| && j != i ==> r[j] == cart[j])
            && (i == |cart| ==> r == cart + [NewLine(p)])
  {
    var i := MergeIndex(cart, p.id);
    if i < |cart| {
      AddMerges(cart, p, i);
    } else {
      AddAppends(cart, p);
    }
  }

  /** The merge case: line i gains one unit and is charged once more. */
  lemma AddMerges(cart: seq<CartLine>, p: CardProduct, i: nat)
    requires i < |cart| && i == MergeIndex(cart, p.id)
    ensures ItemCount(CartAfterAdd(cart, p)) == ItemCount(cart) + 1
    ensures Subtotal(CartAfterAdd(cart, p)) == Subtotal(cart) + EffectivePrice(cart[i])
    ensures |CartAfterAdd(cart, p)| == |cart|
  {
    var line := cart[i].(quantity := cart[i].quantity + 1);
    assert CartAfterAdd(cart, p) == cart[i := line];
    ReplaceLine(cart, i, line);
    OneMoreUnit(cart[i]);
  }

  /** One more unit costs one more effective price. */
  lemma OneMoreUnit(line: CartLine)
    ensures LineTotal(line.(quantity := line.quantity + 1)) == LineTotal(line) + EffectivePrice(line)
  {
    var e := EffectivePrice(line);
    var q := line.quantity as real;
    assert EffectivePrice(line.(quantity := line.quantity + 1)) == e;
    assert (line.quantity + 1) as real == q + 1.0;
    assert e * (q + 1.0) == e * q + e;
  }

  /** The append case: a new one-unit line at the card's price. */
  lemma AddAppends(cart: seq<CartLine>, p: CardProduct)
    requires MergeIndex(cart, p.id) == |cart|
    ensures ItemCount(cart + [NewLine(p)]) == ItemCount(cart) + 1
    ensures Subtotal(cart + [NewLine(p)]) == Subtotal(cart) + p.price
  {
    SubtotalAppend(cart, [NewLine(p)]);
    ItemCountAppend(cart, [NewLine(p)]);
    assert Subtotal([NewLine(p)]) == Subtotal([]) + LineTotal(NewLine(p));
    assert ItemCount([NewLine(p)]) == ItemCount([]) + 1;
  }

  // ---------------------------------------------------------------------------
  // The kitchen.

  /** Every line marked as sent to the kitchen, nothing else changed. */
  function MarkNotified(cart: seq<CartLine>): (r: seq<CartLine>)
    ensures |r| == |cart| && forall j :: 0 <= j < |cart| ==> r[j] == cart[j].(notified := true)
  {
    seq(|cart|, j requires 0 <= j < |cart| => cart[j].(notified := true))
  }

  /** Marking the lines as sent changes neither the money nor the unit count. */
  lemma {:induction false} MarkNotifiedKeepsTotals(cart: seq<CartLine>)
    ensures Subtotal(MarkNotified(cart)) == Subtotal(cart)
    ensures ItemCount(MarkNotified(cart)) == ItemCount(cart)
    decreases |cart|
  {
    if cart != [] {
      var init := cart[..|cart| - 1];
      assert MarkNotified(cart)[..|cart| - 1] == MarkNotified(init);
      MarkNotifiedKeepsTotals(init);
    }
  }

  /** Once the kitchen has the order, a product added again starts a new line:
    * nothing sent is ever merged into. */
  lemma AddAfterNotifyAppends(cart: seq<CartLine>, p: CardProduct)
    ensures CartAfterAdd(MarkNotified(cart), p) == MarkNotified(cart) + [NewLine(p)]
  {
    var marked := MarkNotified(cart);
    forall j | 0 <= j < |marked|
      ensures !Mergeable(marked[j], p.id)
    {
      assert marked[j].notified;
    }
  }

  /** As written, the lines are marked after the pending order's save returns,
    * over the cart as it is then: a product added while the save was in flight
    * is marked as sent though it was not in the cart that was sent. */
  lemma AddDuringSaveMarked(cart: seq<CartLine>, p: CardProduct)
    requires MergeIndex(cart, p.id) == |cart|
    ensures NewLine(p) !in cart
    ensures var marked := MarkNotified(CartAfterAdd(cart, p));
      |marked| == |cart| + 1 && marked[|cart|] == NewLine(p).(notified := true)
  {
    assert Mergeable(NewLine(p), p.id);
  }

  /** What the save should mark: a line is marked as sent only where it still
    * stands exactly as it was in the cart that was sent. */
  function MarkSent(cart: seq<CartLine>, sent: seq<CartLine>): (r: seq<CartLine>)
    ensures |r| == |cart|
    ensures forall j :: 0 <= j < |cart| ==> r[j].notified == (cart[j].notified || (j < |sent| && cart[j] == sent[j]))
    ensures forall j :: 0 <= j < |cart| ==> r[j] == cart[j].(notified := r[j].notified)
  {
    seq(|cart|, j requires 0 <= j < |cart| =>
      if j < |sent| && cart[j] == sent[j] then cart[j].(notified := true) else cart[j])
  }

  /** Marking against the sent cart never marks a line the kitchen did not get. */
  lemma MarkSentOnlySent(cart: seq<CartLine>, sent: seq<CartLine>)
    ensures forall j :: 0 <= j < |cart| && MarkSent(cart, sent)[j].notified && !cart[j].notified ==> cart[j] in sent
  {
  }

  /** With nothing changed while the save was in flight, marking against the
    * sent cart is marking every line, as the page does. */
  lemma MarkSentUnchanged(cart: seq<CartLine>)
    ensures MarkSent(cart, cart) == MarkNotified(cart)
  {
  }

  /** A product added while the save was in flight stays unsent, so the next
    * notification sends it. */
  lemma AddDuringSaveKept(cart: seq<CartLine>, p: CardProduct)
    requires MergeIndex(cart, p.id) == |cart|
    ensures MarkSent(CartAfterAdd(cart, p), cart) == MarkNotified(cart) + [NewLine(p)]
  {
    var r := MarkSent(CartAfterAdd(cart, p), cart);
    assert CartAfterAdd(cart, p) == cart + [NewLine(p)];
    assert r[|cart|] == NewLine(p);
  }

  // ---------------------------------------------------------------------------
  // Changing a line.

  /** Every line holds at least one unit. */
  predicate AllPositive(cart: seq<CartLine>) {
    forall j :: 0 <= j < |cart| ==> cart[j].quantity >= 1
  }

  /** adjustQuantity: a missing index changes nothing; otherwise the line gets
    * delta more units and goes when it has none left. */
  function Adjusted(cart: seq<CartLine>, index: nat, delta: int): seq<CartLine> {
    if index >= |cart| then cart
    else if cart[index].quantity + delta <= 0 then cart[..index] + cart[index + 1..]
    else cart[index := cart[index].(quantity := cart[index].quantity + delta)]
  }

  /** adjustQuantity keeps every line at one unit or more, and moves the unit
    * count by delta, or by minus the line's units when the line goes. */
  lemma AdjustedSpec(cart: seq<CartLine>, index: nat, delta: int)
    requires AllPositive(cart)
    ensures var r := Adjusted(cart, index, delta);
            AllPositive(r)
            && (index < |cart| && cart[index].quantity + delta <= 0 ==>
                  |r| == |cart| - 1 && ItemCount(r) == ItemCount(cart) - cart[index].quantity)
            && (index < |cart| && cart[index].quantity + delta > 0 ==>
                  |r| == |cart| && ItemCount(r) == ItemCount(cart) + delta)
  {
    if index < |cart| {
      if cart[index].quantity + delta <= 0 {
        RemoveLine(cart, index);
        var r := cart[..index] + cart[index + 1..];
        forall j | 0 <= j < |r|
          ensures r[j].quantity >= 1
        {
          if j < index {
            assert r[j] == cart[j];
          } else {
            assert r[j] == cart[j + 1];
          }
        }
      } else {
        ReplaceLine(cart, index, cart[index].(quantity := cart[index].quantity + delta));
      }
    }
  }

  /** A + then a - on a line that keeps its units gives the cart back. */
  lemma AdjustUndo(cart: seq<CartLine>, index: nat, delta: int)
    requires AllPositive(cart) && index < |cart| && cart[index].quantity + delta > 0
    ensures Adjusted(Adjusted(cart, index, delta), index, -delta) == cart
  {
    var r := Adjusted(cart, index, delta);
    assert r[index].quantity - delta == cart[index].quantity >= 1;
    assert r[index := r[index].(quantity := r[index].quantity - delta)] == cart;
  }

  /** The modal's - button: one unit less, but never below one. */
  function Decreased(line: CartLine): CartLine {
    if line.quantity > 1 then line.(quantity := line.quantity - 1) else line
  }

  /** The line after n presses of the modal's - button. */
  function DecreasedTimes(line: CartLine, n: nat): CartLine {
    if n == 0 then line else Decreased(DecreasedTimes(line, n - 1))
  }

  /** However often - is pressed, a line of q >= 1 units ends at max(1, q - n). */
  lemma {:induction false} DecreaseFloor(line: CartLine, n: nat)
    requires line.quantity >= 1
    ensures DecreasedTimes(line, n) == line.(quantity := if line.quantity - n > 1 then line.quantity - n else 1)
  {
    if n > 0 {
      DecreaseFloor(line, n - 1);
    }
  }

  /** The modal's save: the note always, the override only for an admin and
    * only when the price field parses to a number of zero or more. */
  function SavedLine(line: CartLine, note: string, isAdmin: bool, parsed: Option<real>): (r: CartLine)
    ensures r.note == note
    ensures r.id == line.id && r.quantity == line.quantity && r.unitPrice == line.unitPrice && r.notified == line.notified
    ensures EffectivePrice(r)
            == if isAdmin && parsed.Some? && parsed.value >= 0.0 then parsed.value else EffectivePrice(line)
  {
    if isAdmin && parsed.Some? && parsed.value >= 0.0 then line.(note := note, priceOverride := parsed)
    else line.(note := note)
  }

  // ---------------------------------------------------------------------------
  // Checkout.

  /** The payload's items: the cart's lines at their effective prices. */
  function PayloadItems(cart: seq<CartLine>): (r: seq<PayloadItem>)
    ensures |r| == |cart|
    ensures forall j :: 0 <= j < |cart| ==>
      r[j] == PayloadItem(cart[j].id, cart[j].quantity, EffectivePrice(cart[j]), cart[j].note)
  {
    seq(|cart|, j requires 0 <= j < |cart| => PayloadItem(cart[j].id, cart[j].quantity, EffectivePrice(cart[j]), cart[j].note))
  }

  /** prepareCheckout: nothing for an empty cart or when the cash does not cover
    * the total; otherwise the totals and the payload, whose money figures are
    * those totals (subtotal plus percent surcharge) and the cash. */
  function PrepareCheckout(cart: seq<CartLine>, percent: real, cash: real, table: Option<SelectedTable>): (r: Option<Prepared>)
    ensures r.None? <==> cart == [] || cash < CalculateTotals(cart, percent, cash).total
    ensures r.Some? ==>
      r.value.totals == CalculateTotals(cart, percent, cash)
      && r.value.payload.totalAmount == Subtotal(cart) * (1.0 + percent / 100.0)
      && r.value.payload.surchargePercent == percent
      && r.value.payload.surchargeAmount == Subtotal(cart) * percent / 100.0
      && r.value.payload.items == PayloadItems(cart)
      && r.value.payload.customerCash == cash
      && r.value.payload.changeAmount == cash - r.value.payload.totalAmount >= 0.0
      && r.value.payload.tableId == (if table.Some? then Some(table.value.id) else None)
  {
    if cart == [] then None
    else
      var totals := CalculateTotals(cart, percent, cash);
      if cash < totals.total then None
      else
        Some(Prepared(totals, Payload(
          if table.Some? then Some(table.value.id) else None,
          totals.total, totals.percent, totals.surcharge, cash, totals.change, PayloadItems(cart))))
  }

  /** The sum of price times quantity over payload items. */
  function ItemsTotal(items: seq<PayloadItem>): real {
    if items == [] then 0.0 else ItemsTotal(items[..|items| - 1]) + items[|items| - 1].price * items[|items| - 1].quantity as real
  }

  /** The payload's items, priced as sent, add up to the subtotal, so a
    * prepared payload's total is its items' sum with the surcharge on top. */
  lemma {:induction false} PayloadMatchesCart(cart: seq<CartLine>)
    ensures ItemsTotal(PayloadItems(cart)) == Subtotal(cart)
    decreases |cart|
  {
    if cart != [] {
      var init := cart[..|cart| - 1];
      assert PayloadItems(cart)[..|cart| - 1] == PayloadItems(init);
      PayloadMatchesCart(init);
    }
  }

  /** A prepared payload is self-consistent: its items, at the prices sent,
    * plus its surcharge amount make its total, and the change is the cash
    * less that total. */
  lemma PreparedPayloadTotal(cart: seq<CartLine>, percent: real, cash: real, table: Option<SelectedTable>)
    requires PrepareCheckout(cart, percent, cash, table).Some?
    ensures var p := PrepareCheckout(cart, percent, cash, table).value.payload;
      p.totalAmount == ItemsTotal(p.items) + p.surchargeAmount
      && p.surchargeAmount == ItemsTotal(p.items) * p.surchargePercent / 100.0
      && p.changeAmount == p.customerCash - p.totalAmount
  {
    PayloadMatchesCart(cart);
  }

  // ---------------------------------------------------------------------------
  // The storage key.

  const CartStoragePrefix: string := "pos_cart_"

  /** currentCartKey: per table when a table with a non-zero id is selected,
    * otherwise the take-away key. */
  function CartKey(table: Option<SelectedTable>): (r: string)
    ensures table.Some? && table.value.id != 0 ==> r == CartStoragePrefix + "TABLE_" + Decimal(table.value.id)
    ensures !(table.Some? && table.value.id != 0) ==> r == CartStoragePrefix + "TAKEAWAY"
  {
    CartStoragePrefix + (if table.Some? && table.value.id != 0 then "TABLE_" + Decimal(table.value.id) else "TAKEAWAY")
  }

  /** Two tables share a saved cart only when they have the same id, and no
    * table shares the take-away cart. */
  lemma CartKeysDistinct(a: SelectedTable, b: SelectedTable)
    requires a.id != 0 && b.id != 0
    ensures CartKey(Some(a)) == CartKey(Some(b)) <==> a.id == b.id
    ensures CartKey(Some(a)) != CartKey(None)
  {
    var da, db := Decimal(a.id), Decimal(b.id);
    var n := |CartStoragePrefix + "TABLE_"|;
    if CartKey(Some(a)) == CartKey(Some(b)) {
      assert da == CartKey(Some(a))[n..];
      assert db == CartKey(Some(b))[n..];
      DecimalValue(a.id);
      DecimalValue(b.id);
    }
    assert CartKey(Some(a))[9] == 'T' && CartKey(Some(a))[10] == 'A' && CartKey(Some(a))[11] == 'B';
    assert CartKey(None)[11] == 'K';
  }

  // ---------------------------------------------------------------------------
  // The page state.

  class PosState {
    var cart: seq<CartLine>
    var editingIndex: Option<nat>
    const isAdmin: bool
    var selectedTable: Option<SelectedTable>
    var surchargePercent: real
    var cashGiven: real

    /** Every line holds at least one unit. */
    ghost predicate Valid()
      reads this
    {
      AllPositive(cart)
    }

    constructor (isAdmin: bool, surchargePercent: real)
      ensures Valid() && cart == [] && editingIndex.None? && selectedTable.None?
      ensures this.isAdmin == isAdmin && this.surchargePercent == surchargePercent && cashGiven == 0.0
    {
      this.cart := [];
      this.editingIndex := None;
      this.isAdmin := isAdmin;
      this.selectedTable := None;
      this.surchargePercent := surchargePercent;
      this.cashGiven := 0.0;
    }

    /** Everything but the cart and the edited index. */
    function Settings(): (Option<SelectedTable>, real, real)
      reads this
    {
      (selectedTable, surchargePercent, cashGiven)
    }

    /** addToCart: findIndex of a mergeable line, then one more unit there or a new line. */
    method AddToCart(product: CardProduct)
      requires Valid()
      modifies this
      ensures Valid()
      ensures cart == CartAfterAdd(old(cart), product)
      ensures editingIndex == old(editingIndex) && Settings() == old(Settings())
    {
      var i := 0;
      while i < |cart| && !Mergeable(cart[i], product.id)
        invariant 0 <= i <= |cart|
        invariant forall j :: 0 <= j < i ==> !Mergeable(cart[j], product.id)
      {
        i := i + 1;
      }
      assert i == MergeIndex(cart, product.id);
      if i < |cart| {
        cart := cart[i := cart[i].(quantity := cart[i].quantity + 1)];
      } else {
        cart := cart + [NewLine(product)];
      }
    }

    /** adjustQuantity, from the row's +/- buttons. */
    method AdjustQuantity(index: nat, delta: int)
      requires Valid()
      modifies this
      ensures Valid()
      ensures cart == Adjusted(old(cart), index, delta)
      ensures editingIndex == old(editingIndex) && Settings() == old(Settings())
    {
      AdjustedSpec(cart, index, delta);
      if index >= |cart| {
        return;
      }
      var item := cart[index].(quantity := cart[index].quantity + delta);
      if item.quantity <= 0 {
        cart := cart[..index] + cart[index + 1..];
      } else {
        cart := cart[index := item];
      }
    }

    /** openEditModal: the index is remembered even when there is no such line. */
    method OpenEditModal(index: nat)
      modifies this
      ensures editingIndex == Some(index)
      ensures cart == old(cart) && Settings() == old(Settings())
    {
      editingIndex := Some(index);
    }

    /** The index of the edited line, when there is one to edit. A handler that
      * reaches for a missing line fails before it changes anything. */
    function Edited(): (r: Option<nat>)
      reads this
      ensures r.Some? ==> r.value < |cart|
    {
      if editingIndex.Some? && editingIndex.value < |cart| then editingIndex else None
    }

    /** The modal's + button. */
    method ModalIncrease()
      requires Valid()
      modifies this
      ensures Valid()
      ensures old(Edited()).None? ==> cart == old(cart)
      ensures old(Edited()).Some? ==> var i := old(Edited()).value;
        cart == old(cart)[i := old(cart)[i].(quantity := old(cart)[i].quantity + 1)]
      ensures editingIndex == old(editingIndex) && Settings() == old(Settings())
    {
      var e := Edited();
      if e.None? {
        return;
      }
      cart := cart[e.value := cart[e.value].(quantity := cart[e.value].quantity + 1)];
    }

    /** The modal's - button: never below one unit. */
    method ModalDecrease()
      requires Valid()
      modifies this
      ensures Valid()
      ensures old(Edited()).None? ==> cart == old(cart)
      ensures old(Edited()).Some? ==> var i := old(Edited()).value;
        cart == old(cart)[i := Decreased(old(cart)[i])]
      ensures editingIndex == old(editingIndex) && Settings() == old(Settings())
    {
      var e := Edited();
      if e.None? {
        return;
      }
      var item := cart[e.value];
      if item.quantity > 1 {
        cart := cart[e.value := item.(quantity := item.quantity - 1)];
      }
    }

    /** The modal's remove button: splice out the edited line; an index past
      * the end removes nothing. */
    method ModalRemove()
      requires Valid()
      modifies this
      ensures Valid()
      ensures old(Edited()).None? ==> cart == old(cart)
      ensures old(Edited()).Some? ==> var i := old(Edited()).value;
        cart == old(cart)[..i] + old(cart)[i + 1..]
      ensures editingIndex == old(editingIndex) && Settings() == old(Settings())
    {
      var e := Edited();
      if e.None? {
        return;
      }
      var i := e.value;
      var rest := cart[..i] + cart[i + 1..];
      forall j | 0 <= j < |rest|
        ensures rest[j].quantity >= 1
      {
        if j < i {
          assert rest[j] == cart[j];
        } else {
          assert rest[j] == cart[j + 1];
        }
      }
      cart := rest;
    }

    /** The modal's save button, with the note field's text and what the price
      * field parses to. */
    method ModalSave(note: string, parsed: Option<real>)
      requires Valid()
      modifies this
      ensures Valid()
      ensures old(Edited()).None? ==> cart == old(cart)
      ensures old(Edited()).Some? ==> var i := old(Edited()).value;
        cart == old(cart)[i := SavedLine(old(cart)[i], note, isAdmin, parsed)]
      ensures editingIndex == old(editingIndex) && Settings() == old(Settings())
    {
      var e := Edited();
      if e.None? {
        return;
      }
      var item := cart[e.value].(note := note);
      if isAdmin {
        if parsed.Some? && parsed.value >= 0.0 {
          item := item.(priceOverride := parsed);
        }
      }
      cart := cart[e.value := item];
    }

    /** handleNotifyKitchen up to the save request: with no line left to send
      * nothing happens; otherwise the kitchen slip is printed and the whole
      * cart goes out as the pending order's items. The cart is not changed. */
    method SendToKitchen() returns (printed: bool, pending: seq<PayloadItem>)
      ensures printed <==> exists j :: 0 <= j < |cart| && !cart[j].notified
      ensures printed ==> pending == PayloadItems(cart)
      ensures !printed ==> pending == []
    {
      printed := exists j :: 0 <= j < |cart| && !cart[j].notified;
      pending := if printed then PayloadItems(cart) else [];
    }

    /** handleNotifyKitchen once the save request returns: when the pending
      * order was saved, every line of the cart as it is now is marked as sent;
      * a failed save changes nothing. */
    method MarkAfterSave(saved: bool)
      requires Valid()
      modifies this
      ensures Valid()
      ensures saved ==> cart == MarkNotified(old(cart))
      ensures !saved ==> cart == old(cart)
      ensures editingIndex == old(editingIndex) && Settings() == old(Settings())
    {
      if !saved {
        return;
      }
      ghost var before := cart;
      for i := 0 to |cart|
        invariant |cart| == |before|
        invariant forall j :: 0 <= j < i ==> cart[j] == before[j].(notified := true)
        invariant forall j :: i <= j < |cart| ==> cart[j] == before[j]
        invariant editingIndex == old(editingIndex) && Settings() == old(Settings())
      {
        if !cart[i].notified {
          cart := cart[i := cart[i].(notified := true)];
        }
      }
    }

    /** handleNotifyKitchen when nothing else happens on the page while the
      * pending order is saved: the slip is printed exactly when some line has
      * not been sent, and the lines are marked only when the save succeeded. */
    method NotifyKitchen(saved: bool) returns (printed: bool)
      requires Valid()
      modifies this
      ensures Valid()
      ensures printed <==> exists j :: 0 <= j < |old(cart)| && !old(cart)[j].notified
      ensures printed && saved ==> cart == MarkNotified(old(cart))
      ensures !(printed && saved) ==> cart == old(cart)
      ensures editingIndex == old(editingIndex) && Settings() == old(Settings())
    {
      var pending;
      printed, pending := SendToKitchen();
      if printed {
        MarkAfterSave(saved);
      }
    }

    /** calculateTotals over the page state. */
    function Totals(): (t: Totals)
      reads this
      ensures t == CalculateTotals(cart, surchargePercent, cashGiven)
    {
      CalculateTotals(cart, surchargePercent, cashGiven)
    }

    /** prepareCheckout over the page state. */
    method PrepareCheckoutNow() returns (r: Option<Prepared>)
      ensures r == PrepareCheckout(cart, surchargePercent, cashGiven, selectedTable)
    {
      if cart == [] {
        return None;
      }
      var totals := CalculateTotals(cart, surchargePercent, cashGiven);
      if cashGiven < totals.total {
        return None;
      }
      var tableId := if selectedTable.Some? then Some(selectedTable.value.id) else None;
      return Some(Prepared(totals, Payload(tableId, totals.total, totals.percent, totals.surcharge,
                                           cashGiven, totals.change, PayloadItems(cart))));
    }

    /** currentCartKey over the page state. */
    function CurrentCartKey(): (r: string)
      reads this
      ensures r == CartKey(selectedTable)
    {
      CartKey(selectedTable)
    }
  }
}
