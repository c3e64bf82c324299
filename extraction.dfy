/**
 * OrderExtractionHelper: pulls (product, quantity) items out of a chat message.
 * A first pass runs the ordering-phrase pattern over the message; only when it
 * yields no item does a second pass run the bare "<digits> <text>" pattern.
 * Each match's quantity is parsed as a Java int and its text is resolved
 * against the menu by folded containment; a match whose quantity overflows or
 * whose text resolves to nothing is skipped.
 */
module Extraction {
  import opened Wrappers
  import opened Text
  import opened Folding
  import opened Catalog
  import opened Lists
  import opened OrderPattern
  import opened JavaInt

  /** ExtractedItem: the product, the quantity and the note (always null here). */
  datatype ExtractedItem = ExtractedItem(product: Product, quantity: int, note: Option<string>)

  // ---------------------------------------------------------------------------
  // Integer.parseInt on a run of ASCII digits.

  /** The value of a decimal numeral. */
  function DigitsValue(d: string): nat
    requires forall i :: 0 <= i < |d| ==> IsDigit(d[i])
  {
    if d == [] then 0
    else
      assert IsDigit(d[|d| - 1]);
      10 * DigitsValue(d[..|d| - 1]) + (d[|d| - 1] as int - '0' as int)
  }

  /** Integer.parseInt on a digit run: its value, or None where Java throws
    * NumberFormatException because the value does not fit an int. */
  function ParseInt(d: string): (r: Option<int>)
    requires forall i :: 0 <= i < |d| ==> IsDigit(d[i])
  {
    if DigitsValue(d) <= MaxInt then Some(DigitsValue(d)) else None
  }

  /** Integer.toString of a non-negative int: its decimal numeral. */
  function Decimal(n: nat): (r: string)
    ensures r != [] && forall i :: 0 <= i < |r| ==> IsDigit(r[i])
  {
    var last := ['0' + ((n % 10) as char)];
    if n < 10 then last else Decimal(n / 10) + last
  }

  /** Reading a numeral back gives the number it was written from. */
  lemma {:induction false} DecimalValue(n: nat)
    ensures DigitsValue(Decimal(n)) == n
  {
    var d := Decimal(n);
    if n >= 10 {
      DecimalValue(n / 10);
      assert d[..|d| - 1] == Decimal(n / 10);
    }
  }

  /** parseInt round-trips every non-negative int, and rejects every larger value. */
  lemma ParseIntDecimal(n: nat)
    ensures n <= MaxInt ==> ParseInt(Decimal(n)) == Some(n)
    ensures n > MaxInt ==> ParseInt(Decimal(n)).None?
  {
    DecimalValue(n);
  }

  // ---------------------------------------------------------------------------
  // findProductInMenu.

  /** The containment test of findProductInMenu, either way round, on the folded
    * product name and the folded text. */
  predicate NameRelated(p: Product, normalized: string) {
    Contains(Fold(p.name), normalized) || Contains(normalized, Fold(p.name))
  }

  /** The containment test as a function value, for the walk over the menu. */
  function NameTest(normalized: string): Product -> bool {
    (p: Product) => NameRelated(p, normalized)
  }

  /** findProductInMenu after normalizing the text, as a specification: the
    * first product whose folded name and the normalized text contain one another. */
  function FirstMenuMatch(normalized: string, menu: seq<Product>): (r: Option<Product>)
    ensures r.Some? ==> r.value in menu && NameRelated(r.value, normalized)
    ensures r.None? <==> forall p :: p in menu ==> !NameRelated(p, normalized)
  {
    var i := FirstIndex(menu, NameTest(normalized));
    if i < |menu| then Some(menu[i]) else None
  }

  /** The product found is the first one of the menu that passes the test. */
  lemma FirstMenuMatchIsFirst(normalized: string, menu: seq<Product>, i: nat)
    requires i < |menu| && NameTest(normalized)(menu[i])
    requires forall k :: 0 <= k < i ==> !NameTest(normalized)(menu[k])
    ensures FirstMenuMatch(normalized, menu) == Some(menu[i])
  {
    FirstIndexIsFirst(menu, NameTest(normalized), i);
  }

  /** findProductInMenu: the menu walked in order, returning at the first hit. */
  method FindProductInMenu(text: string, menu: seq<Product>) returns (r: Option<Product>)
    ensures r == FirstMenuMatch(Fold(text), menu)
  {
    var normalized := Fold(text);
    var test := NameTest(normalized);
    var i := 0;
    while i < |menu|
      invariant 0 <= i <= |menu|
      invariant forall k :: 0 <= k < i ==> !test(menu[k])
    {
      if test(menu[i]) {
        FirstMenuMatchIsFirst(normalized, menu, i);
        return Some(menu[i]);
      }
      assert forall k :: 0 <= k < i + 1 ==> !test(menu[k]) by {
        assert !test(menu[i]);
      }
      i := i + 1;
    }
    assert FirstIndex(menu, test) == |menu|;
    return None;
  }

  // ---------------------------------------------------------------------------
  // extractOrderItems.

  /** An item as extractOrderItems builds it: a menu product, a quantity that
    * parseInt accepted, and no note. */
  predicate Resolved(it: ExtractedItem, menu: seq<Product>) {
    it.product in menu && it.note.None? && 0 <= it.quantity <= MaxInt
  }

  /** What one match contributes: group 1 parsed, group 2 trimmed and resolved. */
  function ItemOf(s: string, m: Match, menu: seq<Product>): (r: Option<ExtractedItem>)
    requires WellFormed(s, m)
    ensures r.Some? ==> r.value.product in menu && r.value.note.None? && 0 <= r.value.quantity <= MaxInt
  {
    var quantity := ParseInt(s[m.qtyStart..m.qtyEnd]);
    if quantity.None? then None
    else
      var product := FirstMenuMatch(Fold(Trim(s[m.textStart..m.textEnd])), menu);
      if product.None? then None
      else Some(ExtractedItem(product.value, quantity.value, None))
  }

  /** An item wrapped as the list it adds. */
  function AsList(item: Option<ExtractedItem>): seq<ExtractedItem> {
    if item.Some? then [item.value] else []
  }

  /** The items of every match of one pattern from position p on, in order. */
  function Pass(s: string, pattern: Pattern, p: nat, menu: seq<Product>): (r: seq<ExtractedItem>)
    requires p <= |s|
    decreases |s| - p
  {
    var m := FindFrom(s, p, pattern);
    if m.None? then []
    else AsList(ItemOf(s, m.value, menu)) + Pass(s, pattern, m.value.end, menu)
  }

  /** Every item of a pass names a menu product, with an int quantity and no note. */
  lemma {:induction false} PassResolved(s: string, pattern: Pattern, p: nat, menu: seq<Product>)
    requires p <= |s|
    ensures forall it :: it in Pass(s, pattern, p, menu) ==> Resolved(it, menu)
    decreases |s| - p
  {
    var m := FindFrom(s, p, pattern);
    if m.Some? {
      PassResolved(s, pattern, m.value.end, menu);
      var one := AsList(ItemOf(s, m.value, menu));
      assert Pass(s, pattern, p, menu) == one + Pass(s, pattern, m.value.end, menu);
      assert forall it :: it in one ==> Resolved(it, menu);
    }
  }

  /** extractOrderItems, as a specification. */
  function Extract(message: string, menu: seq<Product>): (r: seq<ExtractedItem>)
    ensures IsBlank(message) ==> r == []
  {
    if IsBlank(message) then []
    else
      var first := Pass(message, Phrase, 0, menu);
      if first != [] then first else Pass(message, Bare, 0, menu)
  }

  /** Every extracted item names a menu product, with an int quantity and no note. */
  lemma ExtractResolved(message: string, menu: seq<Product>)
    ensures forall it :: it in Extract(message, menu) ==> Resolved(it, menu)
  {
    PassResolved(message, Phrase, 0, menu);
    PassResolved(message, Bare, 0, menu);
  }

  /** No match resolves against an empty menu. */
  lemma {:induction false} PassEmptyMenu(s: string, pattern: Pattern, p: nat)
    requires p <= |s|
    ensures Pass(s, pattern, p, []) == []
    decreases |s| - p
  {
    var m := FindFrom(s, p, pattern);
    if m.Some? {
      PassEmptyMenu(s, pattern, m.value.end);
      assert ItemOf(s, m.value, []).None?;
    }
  }

  /** An empty menu (the source's null menu included) yields no item. */
  lemma ExtractEmptyMenu(message: string)
    ensures Extract(message, []) == []
  {
    PassEmptyMenu(message, Phrase, 0);
    PassEmptyMenu(message, Bare, 0);
  }

  /** extractOrderItems: the phrase loop, then the bare loop when it found nothing. */
  method ExtractOrderItems(message: string, menu: seq<Product>) returns (items: seq<ExtractedItem>)
    ensures items == Extract(message, menu)
  {
    if IsBlank(message) {
      return [];
    }
    items := RunPass(message, Phrase, menu);
    if items == [] {
      items := RunPass(message, Bare, menu);
    }
  }

  /** One round of the find loop keeps its invariant: the items so far, then
    * those of the pass from the current position, make up the whole pass. */
  lemma PassStep(s: string, pattern: Pattern, menu: seq<Product>, items: seq<ExtractedItem>, pos: nat)
    requires pos <= |s| && FindFrom(s, pos, pattern).Some?
    requires items + Pass(s, pattern, pos, menu) == Pass(s, pattern, 0, menu)
    ensures (items + AsList(ItemOf(s, FindFrom(s, pos, pattern).value, menu)))
          + Pass(s, pattern, FindFrom(s, pos, pattern).value.end, menu)
         == Pass(s, pattern, 0, menu)
  {
    var m := FindFrom(s, pos, pattern).value;
    AppendAssoc(items, AsList(ItemOf(s, m, menu)), Pass(s, pattern, m.end, menu));
  }

  lemma AppendAssoc(a: seq<ExtractedItem>, b: seq<ExtractedItem>, c: seq<ExtractedItem>)
    ensures (a + b) + c == a + (b + c)
  {
  }

  /** The body of the find loop for one match: parse group 1, resolve group 2. */
  method MatchItem(s: string, m: Match, menu: seq<Product>) returns (item: Option<ExtractedItem>)
    requires WellFormed(s, m)
    ensures item == ItemOf(s, m, menu)
  {
    item := None;
    var quantity := ParseInt(s[m.qtyStart..m.qtyEnd]);
    if quantity.Some? {
      var product := FindProductInMenu(Trim(s[m.textStart..m.textEnd]), menu);
      if product.Some? {
        item := Some(ExtractedItem(product.value, quantity.value, None));
      }
    }
  }

  /** One `while (matcher.find())` loop, appending to items. */
  method RunPass(s: string, pattern: Pattern, menu: seq<Product>) returns (items: seq<ExtractedItem>)
    ensures items == Pass(s, pattern, 0, menu)
  {
    items := [];
    var pos := 0;
    var found := FindFrom(s, 0, pattern);
    while found.Some?
      invariant pos <= |s| && found == FindFrom(s, pos, pattern)
      invariant items + Pass(s, pattern, pos, menu) == Pass(s, pattern, 0, menu)
      decreases |s| - pos
    {
      var m := found.value;
      PassStep(s, pattern, menu, items, pos);
      ghost var before := items;
      var item := MatchItem(s, m, menu);
      if item.Some? {
        items := items + [item.value];
      }
      assert items == before + AsList(item);
      pos := m.end;
      found := FindFrom(s, pos, pattern);
    }
    assert items + [] == items;
  }
}
