/**
 * AiOrderAgentService: the keyword-routed flow of the ordering assistant.
 * A message is routed, on its lower-cased text, to one of the tools (view
 * cart, remove, add, menu) or to the language model; the item name and the
 * quantity the add and remove tools receive are cut out of the message;
 * then, when the message asks to confirm, the cart is turned into an order.
 *
 * The language model's answer, the menu search and the order placement are
 * parameters: `chat` is the model's text for a turn the tools do not answer,
 * `render` is the text a tool reply is worded as, `search` is the vector
 * search and `placed` is the outcome of OrderService.createOrder.
 */
module Agent {
  import opened Wrappers
  import opened Text
  import opened Catalog
  import opened Cart
  import opened Session
  import opened Conversations
  import opened Intent
  import opened OrderPattern
  import opened Extraction
  import opened Orders
  import opened Tools
  import opened AiOrder
  import opened JavaInt

  // ---------------------------------------------------------------------------
  // Routing.

  /** The branch processCustomerMessage takes. */
  datatype Route = ViewCartRoute | RemoveRoute | AddRoute | MenuRoute | ChatRoute

  /** The keyword tests on the lower-cased message, first match wins; the add
    * branch also needs a digit and no line terminator (`.*\d+.*`). */
  function RouteOf(message: string): Route {
    var lower := Lower(message);
    if Contains(lower, "giỏ hàng") || Contains(lower, "cart") then ViewCartRoute
    else if Contains(lower, "xóa") || Contains(lower, "bỏ") then RemoveRoute
    else if MatchesDigitPattern(lower)
      && (Contains(lower, "cho") || Contains(lower, "đặt") || Contains(lower, "muốn"))
    then AddRoute
    else if Contains(lower, "menu") || Contains(lower, "món") || Contains(lower, "có gì") then MenuRoute
    else ChatRoute
  }

  /** isConfirmOrder: `&&` binds tighter than `||`, so "ok" counts only
    * together with "đặt". The model's reply is not consulted. */
  predicate IsConfirmOrder(message: string) {
    var lower := Lower(message);
    Contains(lower, "đặt hàng") || Contains(lower, "xác nhận") || Contains(lower, "thanh toán")
    || Contains(lower, "checkout") || (Contains(lower, "ok") && Contains(lower, "đặt"))
  }

  /** detectIntentFromResponse: keyword tests on the lower-cased reply text;
    * "giỏ hàng" reads as viewing the cart only while the cart is empty. */
  function DetectIntentFromResponse(response: string, cartEmpty: bool): (r: OrderIntent)
    ensures r in {AddToCart, ViewCart, RemoveFromCart, AskMenu, Unknown}
    ensures r == ViewCart ==> cartEmpty && Contains(Lower(response), "giỏ hàng")
    ensures r == Unknown ==> !Contains(Lower(response), "menu") && !Contains(Lower(response), "món")
  {
    var lower := Lower(response);
    if Contains(lower, "đã thêm") || Contains(lower, "thêm vào giỏ") then AddToCart
    else if Contains(lower, "giỏ hàng") && cartEmpty then ViewCart
    else if Contains(lower, "xóa") || Contains(lower, "bỏ") then RemoveFromCart
    else if Contains(lower, "menu") || Contains(lower, "món") then AskMenu
    else Unknown
  }

  /** A tool turn that passes on the add reply reads as AddToCart. */
  lemma AddedTextIntent(quantity: string, name: string, price: string, cartEmpty: bool)
    ensures DetectIntentFromResponse(AddedText(quantity, name, price), cartEmpty) == AddToCart
  {
    var head, added := "✅ Em ", "đã thêm";
    var rest := " " + quantity + " " + name + " vào giỏ hàng (Giá: " + price + " VNĐ). " + "Anh/chị muốn thêm món nữa không ạ?";
    assert "✅ Em đã thêm " == head + added + " ";
    KeywordInLower(AddedText(quantity, name, price), head, added, rest, "đã thêm");
  }

  /** No char of s is in cs. */
  predicate Avoids(s: string, cs: set<char>) {
    forall i :: 0 <= i < |s| ==> s[i] !in cs
  }

  /** The letters of the add and remove keywords that the empty-cart reply
    * lacks, with their capitals. */
  const KeywordMarks: set<char> := {'ã', 'Ã', 'ê', 'Ê', 'ó', 'Ó', 'b', 'B'}

  /** Lower-casing brings c only from c or its capital. */
  lemma LowerAvoids(s: string, c: char)
    requires c in {'ã', 'ê', 'ó', 'b'} && Avoids(s, {c, UpperChar(c)})
    ensures c !in Lower(s)
  {
  }

  /** A keyword t that lower-cases to itself is found in the lower-cased text
    * it stands in. */
  lemma KeywordInLower(s: string, a: string, k: string, b: string, t: string)
    requires s == a + k + b && Lower(k) == t
    ensures Contains(Lower(s), t)
  {
    LowerAppend(a, k);
    LowerAppend(a + k, b);
    assert StartsWith(Lower(k), t);
    ContainsInAppend(Lower(a), Lower(k), t);
    ContainsInAppend(Lower(a) + Lower(k), Lower(b), t);
  }

  /** A keyword t that starts the text and lower-cases to t is found in the
    * lower-cased text. */
  lemma KeywordStartsLower(s: string, k: string, b: string, t: string)
    requires s == k + b && Lower(k) == t
    ensures Contains(Lower(s), t)
  {
    LowerAppend(k, b);
    assert StartsWith(Lower(k), t);
    ContainsInAppend(Lower(k), Lower(b), t);
  }

  /** What the lower-cased parts contain, the lower-cased whole contains. */
  lemma ContainsInLowerAppend(a: string, b: string, t: string)
    ensures Contains(Lower(a), t) || Contains(Lower(b), t) ==> Contains(Lower(a + b), t)
  {
    LowerAppend(a, b);
    ContainsInAppend(Lower(a), Lower(b), t);
  }

  /** The lower-cased empty-cart reply names the cart and the menu. */
  lemma EmptyCartWords()
    ensures Contains(Lower(EmptyCartText), "giỏ hàng") && Contains(Lower(EmptyCartText), "menu")
  {
    var first, second := "Giỏ hàng của anh/chị đang trống. ", "Anh/chị muốn xem menu không ạ?";
    NamesCart(first);
    NamesMenu(second);
    ContainsInLowerAppend(first, second, "giỏ hàng");
    ContainsInLowerAppend(first, second, "menu");
  }

  lemma NamesCart(first: string)
    requires first == "Giỏ hàng của anh/chị đang trống. "
    ensures Contains(Lower(first), "giỏ hàng")
  {
    KeywordStartsLower(first, "Giỏ hàng", " của anh/chị đang trống. ", "giỏ hàng");
  }

  lemma NamesMenu(second: string)
    requires second == "Anh/chị muốn xem menu không ạ?"
    ensures Contains(Lower(second), "menu")
  {
    KeywordInLower(second, "Anh/chị muốn xem ", "menu", " không ạ?", "menu");
  }

  lemma EmptyCartFirstAvoids(first: string)
    requires first == "Giỏ hàng của anh/chị đang trống. "
    ensures Avoids(first, KeywordMarks)
  {
  }

  lemma EmptyCartSecondAvoids(second: string)
    requires second == "Anh/chị muốn xem menu không ạ?"
    ensures Avoids(second, KeywordMarks)
  {
  }

  /** The lower-cased empty-cart reply has none of the letters of the add and
    * remove keywords. */
  lemma EmptyCartLetters()
    ensures 'ã' !in Lower(EmptyCartText) && 'ê' !in Lower(EmptyCartText)
    ensures 'ó' !in Lower(EmptyCartText) && 'b' !in Lower(EmptyCartText)
  {
    var first, second := "Giỏ hàng của anh/chị đang trống. ", "Anh/chị muốn xem menu không ạ?";
    LowerAppend(first, second);
    EmptyCartFirstAvoids(first);
    EmptyCartSecondAvoids(second);
    forall c | c in {'ã', 'ê', 'ó', 'b'}
      ensures c !in Lower(first) && c !in Lower(second)
    {
      assert {c, UpperChar(c)} <= KeywordMarks;
      LowerAvoids(first, c);
      LowerAvoids(second, c);
    }
  }

  /** The empty-cart reply reads as ViewCart when the cart is empty; when the
    * cart only sums to zero, it reads as AskMenu. */
  lemma EmptyCartTextIntent(cartEmpty: bool)
    ensures DetectIntentFromResponse(EmptyCartText, cartEmpty) == if cartEmpty then ViewCart else AskMenu
  {
    var lower := Lower(EmptyCartText);
    EmptyCartWords();
    EmptyCartLetters();
    if Contains(lower, "đã thêm") {
      ContainsCharOf(lower, "đã thêm", 'ã');
    }
    if Contains(lower, "thêm vào giỏ") {
      ContainsCharOf(lower, "thêm vào giỏ", 'ê');
    }
    if Contains(lower, "xóa") {
      ContainsCharOf(lower, "xóa", 'ó');
    }
    if Contains(lower, "bỏ") {
      ContainsCharOf(lower, "bỏ", 'b');
    }
  }

  /** The lower-cased remove reply says "xóa" and names the cart. */
  lemma RemovedWords(names: string)
    ensures Contains(Lower(RemovedText(names)), "xóa") && Contains(Lower(RemovedText(names)), "giỏ hàng")
  {
    var head, tail, rest := "✅ Em đã xóa '", "' khỏi giỏ hàng. ", "Anh/chị muốn xem lại giỏ hàng không ạ?";
    NamesRemoval(head);
    NamesCartAfter(tail);
    ContainsInLowerAppend(head, names, "xóa");
    ContainsInLowerAppend(head + names, tail, "xóa");
    ContainsInLowerAppend(head + names + tail, rest, "xóa");
    ContainsInLowerAppend(head + names, tail, "giỏ hàng");
    ContainsInLowerAppend(head + names + tail, rest, "giỏ hàng");
  }

  lemma NamesRemoval(head: string)
    requires head == "✅ Em đã xóa '"
    ensures Contains(Lower(head), "xóa")
  {
    KeywordInLower(head, "✅ Em đã ", "xóa", " '", "xóa");
  }

  lemma NamesCartAfter(tail: string)
    requires tail == "' khỏi giỏ hàng. "
    ensures Contains(Lower(tail), "giỏ hàng")
  {
    KeywordInLower(tail, "' khỏi ", "giỏ hàng", ". ", "giỏ hàng");
  }

  lemma RemovedAvoids(head: string, tail: string, rest: string)
    requires head == "✅ Em đã xóa '" && tail == "' khỏi giỏ hàng. " && rest == "Anh/chị muốn xem lại giỏ hàng không ạ?"
    ensures Avoids(head, {'ê', 'Ê'}) && Avoids(tail, {'ê', 'Ê'}) && Avoids(rest, {'ê', 'Ê'})
  {
  }

  /** The lower-cased remove reply has an 'ê' only where the removed names
    * have one. */
  lemma RemovedLetters(names: string)
    ensures 'ê' !in Lower(names) ==> 'ê' !in Lower(RemovedText(names))
  {
    var head, tail, rest := "✅ Em đã xóa '", "' khỏi giỏ hàng. ", "Anh/chị muốn xem lại giỏ hàng không ạ?";
    LowerAppend(head, names);
    LowerAppend(head + names, tail);
    LowerAppend(head + names + tail, rest);
    RemovedAvoids(head, tail, rest);
    assert UpperChar('ê') == 'Ê';
    LowerAvoids(head, 'ê');
    LowerAvoids(tail, 'ê');
    LowerAvoids(rest, 'ê');
  }

  /** The remove reply reads as RemoveFromCart while lines are left, and as
    * ViewCart once the cart is empty, since it names the cart ("giỏ hàng");
    * the removed names are assumed not to spell an add phrase. */
  lemma RemovedTextIntent(names: string, cartEmpty: bool)
    requires 'ê' !in Lower(names)
    ensures DetectIntentFromResponse(RemovedText(names), cartEmpty) == if cartEmpty then ViewCart else RemoveFromCart
  {
    var lower := Lower(RemovedText(names));
    RemovedWords(names);
    RemovedLetters(names);
    if Contains(lower, "đã thêm") {
      ContainsCharOf(lower, "đã thêm", 'ê');
    }
    if Contains(lower, "thêm vào giỏ") {
      ContainsCharOf(lower, "thêm vào giỏ", 'ê');
    }
  }

  /** Lower-casing sees through upper-casing. */
  lemma LowerUpper(s: string)
    ensures Lower(Upper(s)) == Lower(s)
  {
    forall i | 0 <= i < |s| ensures Lower(Upper(s))[i] == Lower(s)[i] {
      CaseRoundTrip(s[i]);
    }
  }

  /** The routing and the confirmation test read only the lower-cased
    * message, so the letter case of the message does not matter. */
  lemma RoutingIgnoresCase(message: string)
    ensures RouteOf(Upper(message)) == RouteOf(message)
    ensures IsConfirmOrder(Upper(message)) <==> IsConfirmOrder(message)
  {
    LowerUpper(message);
  }

  /** Lower-casing keeps digits and line terminators where they are. */
  lemma LowerKeepsDigitPattern(s: string)
    ensures MatchesDigitPattern(Lower(s)) <==> MatchesDigitPattern(s)
  {
    if HasDigit(s) {
      var i :| 0 <= i < |s| && IsDigit(s[i]);
      assert IsDigit(Lower(s)[i]);
    }
    if HasDigit(Lower(s)) {
      var i :| 0 <= i < |s| && IsDigit(Lower(s)[i]);
      assert IsDigit(s[i]);
    }
  }

  /** A message routed to addToCart holds a number and mentions neither the
    * cart nor removal. */
  lemma AddRouteHasNumber(message: string)
    requires RouteOf(message) == AddRoute
    ensures HasDigit(message)
    ensures !Contains(Lower(message), "cart") && !Contains(Lower(message), "xóa") && !Contains(Lower(message), "bỏ")
  {
    LowerKeepsDigitPattern(message);
  }

  // ---------------------------------------------------------------------------
  // extractQuantity: the first run of digits, parsed as an int; 1 when there
  // is none or it does not fit.

  /** The first index at or after i holding a digit (or |s|). */
  function FirstDigitFrom(s: string, i: nat): (r: nat)
    requires i <= |s|
    ensures i <= r <= |s|
    ensures forall k :: i <= k < r ==> !IsDigit(s[k])
    ensures r < |s| ==> IsDigit(s[r])
    decreases |s| - i
  {
    if i == |s| || IsDigit(s[i]) then i else FirstDigitFrom(s, i + 1)
  }

  function ExtractQuantity(message: string): (r: int)
    ensures !HasDigit(message) ==> r == 1
    ensures 0 <= r <= MaxInt
  {
    var i := FirstDigitFrom(message, 0);
    if i == |message| then 1
    else
      var digits := message[i..DigitRunEnd(message, i)];
      assert forall k :: 0 <= k < |digits| ==> IsDigit(digits[k]);
      ParseInt(digits).GetOr(1)
  }

  /** The first digit at or after j is the one at i when none lies between. */
  lemma {:induction false} FirstDigitAt(s: string, j: nat, i: nat)
    requires j <= i < |s| && IsDigit(s[i])
    requires forall k :: j <= k < i ==> !IsDigit(s[k])
    ensures FirstDigitFrom(s, j) == i
    decreases i - j
  {
    if j < i {
      FirstDigitAt(s, j + 1, i);
    }
  }

  /** The quantity is the value of the first maximal digit run of the message
    * when it fits an int, and 1 otherwise. */
  lemma ExtractQuantityIsFirstRun(message: string, i: nat, e: nat)
    requires i < e <= |message|
    requires forall k :: 0 <= k < i ==> !IsDigit(message[k])
    requires forall k :: i <= k < e ==> IsDigit(message[k])
    requires e == |message| || !IsDigit(message[e])
    ensures ExtractQuantity(message)
      == if DigitsValue(message[i..e]) <= MaxInt then DigitsValue(message[i..e]) else 1
  {
    FirstDigitAt(message, 0, i);
  }

  // ---------------------------------------------------------------------------
  // extractItemName: the words after the first all-digit word, without the
  // words "cho", "tôi", "đặt" and "muốn", joined by single spaces.

  /** The end of the word starting at i: the first regex space at or after i. */
  function WordEnd(s: string, i: nat): (r: nat)
    requires i <= |s|
    ensures i <= r <= |s|
    ensures forall k :: i <= k < r ==> !IsRegexSpace(s[k])
    ensures r == |s| || IsRegexSpace(s[r])
    decreases |s| - i
  {
    if i == |s| || IsRegexSpace(s[i]) then i else WordEnd(s, i + 1)
  }

  /** split("\\s+") without its empty pieces: the maximal runs of non-space
    * characters, in order. (The one empty piece split can return comes first,
    * before any number, where extractItemName ignores it.) */
  function Words(s: string): (r: seq<string>)
    ensures forall k :: 0 <= k < |r| ==> r[k] != []
    ensures forall k, j :: 0 <= k < |r| && 0 <= j < |r[k]| ==> !IsRegexSpace(r[k][j]) && r[k][j] in s
    decreases |s|
  {
    var start := SpaceRunEnd(s, 0);
    if start == |s| then []
    else
      var end := WordEnd(s, start);
      var rest := Words(s[end..]);
      assert forall k, j :: 0 <= k < |rest| && 0 <= j < |rest[k]| ==> rest[k][j] in s by {
        forall k, j | 0 <= k < |rest| && 0 <= j < |rest[k]| ensures rest[k][j] in s {
          var c := rest[k][j];
          assert c in s[end..];
          var m :| 0 <= m < |s[end..]| && s[end..][m] == c;
          assert s[end + m] == c;
        }
      }
      [s[start..end]] + rest
  }

  /** The words extractItemName skips after the number. */
  predicate StopWord(w: string) {
    EqualsIgnoreCase(w, "cho") || EqualsIgnoreCase(w, "tôi")
    || EqualsIgnoreCase(w, "đặt") || EqualsIgnoreCase(w, "muốn")
  }

  /** The words the loop appends, given whether a number was already seen. */
  function KeptWords(words: seq<string>, found: bool): seq<string>
    decreases |words|
  {
    if words == [] then []
    else if AllDigits(words[0]) then KeptWords(words[1..], true)
    else if found && !StopWord(words[0]) then [words[0]] + KeptWords(words[1..], found)
    else KeptWords(words[1..], found)
  }

  /** The builder's contents: each word followed by one space. */
  function Joined(words: seq<string>): string
    decreases |words|
  {
    if words == [] then [] else words[0] + " " + Joined(words[1..])
  }

  /** The item name extractItemName returns. */
  function ItemName(message: string): string {
    Trim(Joined(KeptWords(Words(message), false)))
  }

  /** Word i comes after some all-digit word. */
  predicate AfterNumber(words: seq<string>, i: int)
    requires 0 <= i <= |words|
  {
    exists j :: 0 <= j < i && AllDigits(words[j])
  }

  /** A word is kept exactly when it is neither a number nor a stop word and
    * some number comes before it. */
  lemma {:induction false} KeptWordsSpec(words: seq<string>, found: bool)
    ensures forall w :: w in KeptWords(words, found) <==>
      exists i :: 0 <= i < |words| && words[i] == w && !AllDigits(w) && !StopWord(w)
        && (found || AfterNumber(words, i))
    decreases |words|
  {
    if words != [] {
      var found' := found || AllDigits(words[0]);
      KeptWordsSpec(words[1..], found');
      forall w ensures w in KeptWords(words, found) <==>
        exists i :: 0 <= i < |words| && words[i] == w && !AllDigits(w) && !StopWord(w)
          && (found || AfterNumber(words, i))
      {
        if w in KeptWords(words, found) {
          if !AllDigits(words[0]) && found && !StopWord(words[0]) && w == words[0] {
            assert 0 < |words| && words[0] == w;
          } else {
            assert w in KeptWords(words[1..], found');
            var i :| 0 <= i < |words[1..]| && words[1..][i] == w && !AllDigits(w) && !StopWord(w)
              && (found' || AfterNumber(words[1..], i));
            if !found && !AllDigits(words[0]) {
              var j :| 0 <= j < i && AllDigits(words[1..][j]);
              assert AllDigits(words[j + 1]);
            } else if !found {
              assert AllDigits(words[0]);
            }
            assert words[i + 1] == w && (found || AfterNumber(words, i + 1));
          }
        }
        if (exists i :: 0 <= i < |words| && words[i] == w && !AllDigits(w) && !StopWord(w)
              && (found || AfterNumber(words, i))) {
          var i :| 0 <= i < |words| && words[i] == w && !AllDigits(w) && !StopWord(w)
            && (found || AfterNumber(words, i));
          if i == 0 {
            assert found;
          } else {
            if !found' {
              var j :| 0 <= j < i && AllDigits(words[j]);
              assert j != 0;
              assert AllDigits(words[1..][j - 1]);
            }
            assert words[1..][i - 1] == w && (found' || AfterNumber(words[1..], i - 1));
            assert w in KeptWords(words[1..], found');
          }
        }
      }
    }
  }

  /** Without a number word nothing is kept. */
  lemma {:induction false} NothingKeptWithoutNumber(words: seq<string>)
    requires forall k :: 0 <= k < |words| ==> !AllDigits(words[k])
    ensures KeptWords(words, false) == []
    decreases |words|
  {
    if words != [] {
      NothingKeptWithoutNumber(words[1..]);
    }
  }

  /** A word made of a digit-free message's chars is not a number. */
  lemma NoDigitWord(w: string, message: string)
    requires forall j :: 0 <= j < |w| ==> w[j] in message
    requires !HasDigit(message)
    ensures !AllDigits(w)
  {
    if |w| > 0 {
      assert w[0] in message;
    }
  }

  /** A message without a digit yields an empty item name. */
  lemma NoNumberNoName(message: string)
    requires !HasDigit(message)
    ensures ItemName(message) == ""
  {
    var words := Words(message);
    forall k | 0 <= k < |words| ensures !AllDigits(words[k]) {
      NoDigitWord(words[k], message);
    }
    NothingKeptWithoutNumber(words);
  }

  /** One step of KeptWords over a suffix. */
  lemma KeptStep(parts: seq<string>, t: nat, found: bool)
    requires t < |parts|
    ensures KeptWords(parts[t..], found)
      == if AllDigits(parts[t]) then KeptWords(parts[t + 1..], true)
         else if found && !StopWord(parts[t]) then [parts[t]] + KeptWords(parts[t + 1..], found)
         else KeptWords(parts[t + 1..], found)
  {
    assert parts[t..][0] == parts[t] && parts[t..][1..] == parts[t + 1..];
  }

  /** Joining a word in front. */
  lemma JoinedCons(w: string, rest: seq<string>)
    ensures Joined([w] + rest) == w + " " + Joined(rest)
  {
    assert ([w] + rest)[1..] == rest;
  }

  /** extractItemName: split, the loop, trim. */
  method ExtractItemName(message: string) returns (name: string)
    ensures name == ItemName(message)
  {
    var parts := Words(message);
    var builder := BuildItemName(parts);
    name := Trim(builder);
  }

  /** The loop of extractItemName over the split words: the builder gets each
    * kept word followed by a space. */
  method BuildItemName(parts: seq<string>) returns (builder: string)
    ensures builder == Joined(KeptWords(parts, false))
  {
    builder := "";
    var found := false;
    for t := 0 to |parts|
      invariant builder + Joined(KeptWords(parts[t..], found)) == Joined(KeptWords(parts, false))
    {
      var part := parts[t];
      KeptStep(parts, t, found);
      if AllDigits(part) {
        found := true;
      } else if found && !StopWord(part) {
        ghost var rest := KeptWords(parts[t + 1..], found);
        JoinedCons(part, rest);
        assert builder + (part + " " + Joined(rest)) == (builder + part + " ") + Joined(rest);
        builder := builder + part + " ";
      }
    }
    assert parts[|parts|..] == [];
    assert Joined(KeptWords(parts[|parts|..], found)) == [];
  }

  // ---------------------------------------------------------------------------
  // What a turn's tool does, as functions of the message, the raw session id,
  // the cart before the tool and the search.

  /** The add request built from the message. */
  function AddRequestFor(message: string, sessionId: Option<string>): AddToCartRequest {
    AddToCartRequest(Some(ItemName(message)), Some(ExtractQuantity(message)), sessionId)
  }

  /** The remove request built from the message. */
  function RemoveRequestFor(message: string, sessionId: Option<string>): RemoveFromCartRequest {
    RemoveFromCartRequest(Some(ItemName(message)), sessionId)
  }

  /** The reply of getMenu for the raw message. */
  function MenuReply(message: string, search: (string, int) -> seq<Product>): ToolReply {
    if IsBlank(message) then MenuPrompt
    else if search(message, 5) == [] then NoMenuMatch(message)
    else MenuListing(search(message, 5))
  }

  /** The reply of viewCart for a cart. */
  function CartReply(sessionId: Option<string>, cart: seq<Line>): ToolReply
    requires !NullOrBlank(sessionId) ==> AllPriced(cart)
  {
    if NullOrBlank(sessionId) then SessionError
    else if Total(cart) == 0.0 then EmptyCartReply
    else CartListing(Listing(cart, Total(cart)))
  }

  /** The tool reply of a turn; None when the language model answers. */
  function ToolReplyFor(route: Route, message: string, sessionId: Option<string>, cart: seq<Line>,
                        search: (string, int) -> seq<Product>): (r: Option<ToolReply>)
    requires !NullOrBlank(sessionId) ==> AllPriced(cart)
    ensures r.None? <==> route == ChatRoute
  {
    match route
    case ViewCartRoute => Some(CartReply(sessionId, cart))
    case RemoveRoute => Some(RemoveOutcome(RemoveRequestFor(message, sessionId), cart))
    case AddRoute => Some(AddOutcome(AddRequestFor(message, sessionId), search))
    case MenuRoute => Some(MenuReply(message, search))
    case ChatRoute => None
  }

  /** The session's cart after a turn's tool. */
  function CartAfterTool(route: Route, message: string, sessionId: Option<string>, cart: seq<Line>,
                         search: (string, int) -> seq<Product>): seq<Line>
  {
    match route
    case AddRoute => CartAfterAdd(cart, AddRequestFor(message, sessionId), search)
    case RemoveRoute => CartAfterRemove(cart, RemoveRequestFor(message, sessionId))
    case _ => cart
  }

  /** Only the add and remove tools change the cart; a turn keeps every
    * line priced. */
  lemma CartAfterToolSpec(route: Route, message: string, sessionId: Option<string>, cart: seq<Line>,
                          search: (string, int) -> seq<Product>)
    ensures route !in {AddRoute, RemoveRoute} ==> CartAfterTool(route, message, sessionId, cart, search) == cart
    ensures AllPriced(cart) ==> AllPriced(CartAfterTool(route, message, sessionId, cart, search))
  {
    if AllPriced(cart) {
      match route
      case AddRoute =>
        var line := AddedLineFor(AddRequestFor(message, sessionId), search);
        if line.Some? {
          MergeAllPriced(cart, [line.value]);
        }
      case RemoveRoute =>
        var reply := RemoveOutcome(RemoveRequestFor(message, sessionId), cart);
        if reply.RemovedNames? {
          RemoveNamedPriced(cart, reply.names);
        }
      case _ =>
    }
  }

  /** Without a session id no tool touches any cart: the cart tools answer
    * with the session error (or ask for the item first), whatever the cart. */
  lemma BlankSessionTurn(route: Route, message: string, sessionId: Option<string>, cart: seq<Line>,
                         other: seq<Line>, search: (string, int) -> seq<Product>)
    requires NullOrBlank(sessionId)
    ensures CartAfterTool(route, message, sessionId, cart, search) == cart
    ensures ToolReplyFor(route, message, sessionId, cart, search) == ToolReplyFor(route, message, sessionId, other, search)
    ensures route in {ViewCartRoute, AddRoute, RemoveRoute} ==>
      ToolReplyFor(route, message, sessionId, cart, search) in {Some(SessionError), Some(AskItemName)}
  {
  }

  /** A remove message without a number never removes anything: the item
    * name is cut after a number, so the tool asks for the item. */
  lemma RemoveNeedsNumber(message: string, sessionId: Option<string>, cart: seq<Line>,
                          search: (string, int) -> seq<Product>)
    requires !HasDigit(message)
    requires !NullOrBlank(sessionId) ==> AllPriced(cart)
    ensures ToolReplyFor(RemoveRoute, message, sessionId, cart, search) == Some(AskItemName)
    ensures CartAfterTool(RemoveRoute, message, sessionId, cart, search) == cart
  {
    NoNumberNoName(message);
    assert IsBlank(ItemName(message));
  }

  /** An add turn that reports an added line merged exactly that line, with
    * the top search hit for the item name, its price and a quantity of at
    * least 1 taken from the message's number. */
  lemma AddTurnMergesOneLine(message: string, sessionId: Option<string>, cart: seq<Line>,
                             search: (string, int) -> seq<Product>)
    requires AddOutcome(AddRequestFor(message, sessionId), search).AddedLine?
    ensures var line := AddedLineFor(AddRequestFor(message, sessionId), search).value;
      CartAfterTool(AddRoute, message, sessionId, cart, search) == MergeAll(cart, [line])
      && line.product == search(ItemName(message), 1)[0] && line.price == Some(line.product.price)
      && line.quantity == (if ExtractQuantity(message) > 0 then ExtractQuantity(message) else 1)
  {
  }

  // ---------------------------------------------------------------------------
  // The service.

  class AiOrderAgentService {
    const conversationService: ConversationService
    const tools: AiOrderTools

    constructor (conversationService: ConversationService, tools: AiOrderTools)
      requires tools.conversationService == conversationService
      ensures this.conversationService == conversationService && this.tools == tools
    {
      this.conversationService := conversationService;
      this.tools := tools;
    }

    /** The tools work on the same session store as the service. */
    ghost predicate Valid()
      reads this, conversationService, conversationService.conversations.Values
    {
      tools.conversationService == conversationService && conversationService.Valid()
    }

    /** The tool call of a turn (or the model's text), on the raw session id. */
    method RunTool(route: Route, message: string, sessionId: Option<string>, search: (string, int) -> seq<Product>,
                   chat: string, render: ToolReply -> string, now: int)
      returns (text: string, reply: Option<ToolReply>)
      requires Valid()
      requires !NullOrBlank(sessionId) ==> AllPriced(conversationService.CartOf(sessionId.GetOr("")))
      modifies conversationService, conversationService.conversations.Values
      modifies conversationService.CartObjects(sessionId.GetOr(""))
      ensures Valid()
      ensures reply == ToolReplyFor(route, message, sessionId, old(conversationService.CartOf(sessionId.GetOr(""))), search)
      ensures text == if reply.Some? then render(reply.value) else chat
      ensures forall k :: k in old(conversationService.conversations) ==>
        k in conversationService.conversations && conversationService.conversations[k] == old(conversationService.conversations[k])
      ensures NullOrBlank(sessionId) || route !in {AddRoute, RemoveRoute} ==>
        conversationService.conversations == old(conversationService.conversations)
        && unchanged(old(conversationService.conversations.Values))
        && unchanged(old(conversationService.CartObjects(sessionId.GetOr(""))))
      ensures !NullOrBlank(sessionId) ==>
        conversationService.CartOf(sessionId.GetOr(""))
          == CartAfterTool(route, message, sessionId, old(conversationService.CartOf(sessionId.GetOr(""))), search)
        && AllPriced(conversationService.CartOf(sessionId.GetOr("")))
      ensures conversationService.TableOf(sessionId.GetOr("")) == old(conversationService.TableOf(sessionId.GetOr("")))
    {
      ghost var before := conversationService.CartOf(sessionId.GetOr(""));
      CartAfterToolSpec(route, message, sessionId, before, search);
      match route {
      case ViewCartRoute =>
        var r := tools.ViewCart(sessionId);
        assert r == CartReply(sessionId, before);
        reply := Some(r);
      case RemoveRoute =>
        var r := RunRemove(message, sessionId, now);
        reply := Some(r);
      case AddRoute =>
        var r := RunAdd(message, sessionId, search, now);
        reply := Some(r);
      case MenuRoute =>
        var r := tools.GetMenu(Some(message), search);
        assert r == MenuReply(message, search);
        reply := Some(r);
      case ChatRoute =>
        reply := None;
      }
      text := if reply.Some? then render(reply.value) else chat;
    }

    /** The remove branch: the item name cut from the message, then removeFromCart. */
    method RunRemove(message: string, sessionId: Option<string>, now: int) returns (r: ToolReply)
      requires Valid()
      modifies conversationService, conversationService.conversations.Values
      ensures Valid()
      ensures r == RemoveOutcome(RemoveRequestFor(message, sessionId), old(conversationService.CartOf(sessionId.GetOr(""))))
      ensures conversationService.conversations == old(conversationService.conversations)
      ensures !r.RemovedNames? ==> unchanged(old(conversationService.conversations.Values))
      ensures !NullOrBlank(sessionId) ==>
        conversationService.CartOf(sessionId.GetOr(""))
          == CartAfterRemove(old(conversationService.CartOf(sessionId.GetOr(""))), RemoveRequestFor(message, sessionId))
      ensures !NullOrBlank(sessionId) && AllPriced(old(conversationService.CartOf(sessionId.GetOr("")))) ==>
        AllPriced(conversationService.CartOf(sessionId.GetOr("")))
      ensures conversationService.TableOf(sessionId.GetOr("")) == old(conversationService.TableOf(sessionId.GetOr("")))
      ensures r.RemovedNames? ==> OthersKept(old(conversationService.Sessions()), conversationService.Sessions(), sessionId.GetOr(""))
    {
      var name := ExtractItemName(message);
      var request := RemoveFromCartRequest(Some(name), sessionId);
      assert request == RemoveRequestFor(message, sessionId);
      conversationService.SessionsKept();
      r := tools.RemoveFromCart(request, now);
      assert NullOrBlank(sessionId) ==> !r.RemovedNames?;
    }

    /** The add branch: the item name and the quantity cut from the message,
      * then addToCart. */
    method RunAdd(message: string, sessionId: Option<string>, search: (string, int) -> seq<Product>, now: int)
      returns (r: ToolReply)
      requires Valid()
      modifies conversationService, conversationService.conversations.Values
      modifies conversationService.CartObjects(sessionId.GetOr(""))
      ensures Valid()
      ensures r == AddOutcome(AddRequestFor(message, sessionId), search)
      ensures forall k :: k in old(conversationService.conversations) ==>
        k in conversationService.conversations && conversationService.conversations[k] == old(conversationService.conversations[k])
      ensures NullOrBlank(sessionId) ==>
        conversationService.conversations == old(conversationService.conversations)
        && unchanged(old(conversationService.conversations.Values))
        && unchanged(old(conversationService.CartObjects(sessionId.GetOr(""))))
      ensures !NullOrBlank(sessionId) ==>
        conversationService.CartOf(sessionId.GetOr(""))
          == CartAfterAdd(old(conversationService.CartOf(sessionId.GetOr(""))), AddRequestFor(message, sessionId), search)
      ensures !NullOrBlank(sessionId) && AllPriced(old(conversationService.CartOf(sessionId.GetOr("")))) ==>
        AllPriced(conversationService.CartOf(sessionId.GetOr("")))
      ensures conversationService.TableOf(sessionId.GetOr("")) == old(conversationService.TableOf(sessionId.GetOr("")))
    {
      var name := ExtractItemName(message);
      var quantity := ExtractQuantity(message);
      var request := AddToCartRequest(Some(name), Some(quantity), sessionId);
      assert request == AddRequestFor(message, sessionId);
      assert !NullOrBlank(sessionId) ==> sessionId.GetOr("") == sessionId.value;
      r := tools.AddToCart(request, search, now);
    }

    /** The end of processCustomerMessage, once the tool has run: a
      * confirming message goes to handleConfirmOrder; any other gets the
      * text, the intent read back from it and the session's cart. */
    method Conclude(message: string, text: string, state: ConversationState, placed: Option<PlacedOrder>)
      returns (resp: AiOrderResponse, sent: Option<OrderRequest>)
      requires Current(conversationService, state) && AllPriced(conversationService.CartOf(IdOf(state)))
      modifies conversationService
      ensures conversationService.Valid() && unchanged(old(conversationService.conversations.Values))
      ensures resp.intent == ConfirmOrder <==> IsConfirmOrder(message)
      ensures sent.Some? <==> IsConfirmOrder(message) && old(conversationService.CartOf(IdOf(state))) != []
      ensures sent.Some? ==> sent == Some(ConfirmRequest(old(conversationService.CartOf(IdOf(state))), state.tableNumber))
      ensures sent.Some? && placed.Some? ==>
        conversationService.conversations == old(conversationService.conversations) - {IdOf(state)}
        && resp == AiOrderResponse(OrderPlaced(placed.value.id, placed.value.totalAmount), ConfirmOrder, [],
                                   Some(placed.value.totalAmount), Some(placed.value.id), false)
      ensures sent.None? || placed.None? ==>
        conversationService.conversations == old(conversationService.conversations)
        && conversationService.CartOf(IdOf(state)) == old(conversationService.CartOf(IdOf(state)))
      ensures sent.Some? && placed.None? ==>
        resp.message == OrderFailed && resp.totalAmount == Some(Total(old(conversationService.CartOf(IdOf(state)))))
      ensures IsConfirmOrder(message) && old(conversationService.CartOf(IdOf(state))) == [] ==>
        resp.message == NothingToConfirm
      ensures !IsConfirmOrder(message) ==>
        var cart := old(conversationService.CartOf(IdOf(state)));
        resp == AiOrderResponse(Generated(text), DetectIntentFromResponse(text, cart == []),
                                Dtos(cart), Some(Total(cart)), None, false)
    {
      var intent := DetectIntentFromResponse(text, state.cartItems == []);
      if IsConfirmOrder(message) {
        resp, sent := PlaceOrder(conversationService, state, placed);
        return;
      }
      sent := None;
      ResponseIsConsistent(conversationService, Generated(text), intent, state);
      resp := BuildResponse(conversationService, Generated(text), intent, state);
    }

    /** processCustomerMessage after the session is open: the tool, then
      * the confirmation or the response. `key`, `before` and `table` name the
      * state's id, its cart and its table number as the turn starts. */
    method Turn(message: string, sessionId: Option<string>, state: ConversationState,
                search: (string, int) -> seq<Product>, chat: string, render: ToolReply -> string,
                placed: Option<PlacedOrder>, now: int, ghost key: string, ghost before: seq<Line>, ghost table: Option<string>)
      returns (resp: AiOrderResponse, reply: Option<ToolReply>, sent: Option<OrderRequest>, ghost cart: seq<Line>)
      requires Valid() && Current(conversationService, state) && key == IdOf(state)
      requires before == conversationService.CartOf(key) && AllPriced(before) && table == state.tableNumber
      requires !NullOrBlank(sessionId) ==> key == sessionId.GetOr("")
      modifies conversationService, conversationService.conversations.Values
      modifies conversationService.CartObjects(sessionId.GetOr(""))
      ensures Valid()
      ensures reply == ToolReplyFor(RouteOf(message), message, sessionId, before, search)
      ensures cart == CartAfterTool(RouteOf(message), message, sessionId, before, search)
      ensures AllPriced(cart)
      ensures resp.intent == ConfirmOrder <==> IsConfirmOrder(message)
      ensures sent.Some? <==> IsConfirmOrder(message) && cart != []
      ensures sent.Some? ==> sent == Some(ConfirmRequest(cart, table))
      ensures sent.Some? && placed.Some? ==>
        key !in conversationService.conversations
        && resp == AiOrderResponse(OrderPlaced(placed.value.id, placed.value.totalAmount), ConfirmOrder, [],
                                   Some(placed.value.totalAmount), Some(placed.value.id), false)
      ensures sent.Some? && placed.None? ==>
        resp.message == OrderFailed && resp.totalAmount == Some(Total(cart))
        && conversationService.CartOf(key) == cart
      ensures IsConfirmOrder(message) && cart == [] ==> resp.message == NothingToConfirm
      ensures !IsConfirmOrder(message) ==>
        var text := if reply.Some? then render(reply.value) else chat;
        resp == AiOrderResponse(Generated(text), DetectIntentFromResponse(text, cart == []),
                                Dtos(cart), Some(Total(cart)), None, false)
        && conversationService.CartOf(key) == cart
    {
      var text;
      text, reply, cart := ToolStep(message, sessionId, state, search, chat, render, now, key, before);
      resp, sent := Conclude(message, text, state, placed);
    }

    /** The tool call of a turn, seen from the session's state. */
    method ToolStep(message: string, sessionId: Option<string>, state: ConversationState,
                    search: (string, int) -> seq<Product>, chat: string, render: ToolReply -> string,
                    now: int, ghost key: string, ghost before: seq<Line>)
      returns (text: string, reply: Option<ToolReply>, ghost cart: seq<Line>)
      requires Valid() && Current(conversationService, state) && key == IdOf(state)
      requires before == conversationService.CartOf(key) && AllPriced(before)
      requires !NullOrBlank(sessionId) ==> key == sessionId.GetOr("")
      modifies conversationService, conversationService.conversations.Values
      modifies conversationService.CartObjects(sessionId.GetOr(""))
      ensures Valid() && Current(conversationService, state) && key == IdOf(state)
      ensures state.tableNumber == old(state.tableNumber)
      ensures reply == ToolReplyFor(RouteOf(message), message, sessionId, before, search)
      ensures text == if reply.Some? then render(reply.value) else chat
      ensures cart == conversationService.CartOf(key)
      ensures cart == CartAfterTool(RouteOf(message), message, sessionId, before, search)
      ensures AllPriced(cart)
    {
      if NullOrBlank(sessionId) {
        BlankSessionTurn(RouteOf(message), message, sessionId, before, conversationService.CartOf(sessionId.GetOr("")), search);
      }
      text, reply := RunTool(RouteOf(message), message, sessionId, search, chat, render, now);
      assert conversationService.conversations[key] == state;
      cart := conversationService.CartOf(key);
      CartAfterToolSpec(RouteOf(message), message, sessionId, before, search);
    }

    /** processCustomerMessage. The tool runs first; then a confirming message
      * places the cart the tool left, whatever the tool said; any other turn
      * answers with the tool's (or the model's) text, the intent read back
      * from that text and the session's cart. */
    method ProcessCustomerMessage(message: string, sessionId: Option<string>, tableNumber: Option<string>,
                                  freshId: string, freshId2: string, search: (string, int) -> seq<Product>,
                                  chat: string, render: ToolReply -> string, placed: Option<PlacedOrder>, now: int)
      returns (resp: AiOrderResponse, reply: Option<ToolReply>, sent: Option<OrderRequest>, ghost cart: seq<Line>)
      requires Valid() && !IsBlank(freshId) && !IsBlank(freshId2)
      requires AllPriced(conversationService.CartOf(SessionKey(sessionId.GetOr(""), freshId)))
      modifies conversationService, conversationService.conversations.Values
      modifies conversationService.CartObjects(sessionId.GetOr(""))
      ensures Valid()
      ensures reply == ToolReplyFor(RouteOf(message), message, sessionId,
        old(conversationService.CartOf(SessionKey(sessionId.GetOr(""), freshId))), search)
      ensures cart == CartAfterTool(RouteOf(message), message, sessionId,
        old(conversationService.CartOf(SessionKey(sessionId.GetOr(""), freshId))), search)
      ensures AllPriced(cart)
      ensures resp.intent == ConfirmOrder <==> IsConfirmOrder(message)
      ensures sent.Some? <==> IsConfirmOrder(message) && cart != []
      ensures sent.Some? ==> sent == Some(ConfirmRequest(cart,
        if NullOrBlank(tableNumber) then old(conversationService.TableOf(SessionKey(sessionId.GetOr(""), freshId))) else tableNumber))
      ensures sent.Some? && placed.Some? ==>
        SessionKey(sessionId.GetOr(""), freshId) !in conversationService.conversations
        && resp == AiOrderResponse(OrderPlaced(placed.value.id, placed.value.totalAmount), ConfirmOrder, [],
                                   Some(placed.value.totalAmount), Some(placed.value.id), false)
      ensures sent.Some? && placed.None? ==>
        resp.message == OrderFailed && resp.totalAmount == Some(Total(cart))
        && conversationService.CartOf(SessionKey(sessionId.GetOr(""), freshId)) == cart
      ensures IsConfirmOrder(message) && cart == [] ==> resp.message == NothingToConfirm
      ensures !IsConfirmOrder(message) ==>
        var text := if reply.Some? then render(reply.value) else chat;
        resp == AiOrderResponse(Generated(text), DetectIntentFromResponse(text, cart == []),
                                Dtos(cart), Some(Total(cart)), None, false)
        && conversationService.CartOf(SessionKey(sessionId.GetOr(""), freshId)) == cart
    {
      var raw := sessionId.GetOr("");
      ghost var key := SessionKey(raw, freshId);
      ghost var before := conversationService.CartOf(key);
      ghost var table := if NullOrBlank(tableNumber) then conversationService.TableOf(key) else tableNumber;
      var state := OpenTurn(conversationService, sessionId, tableNumber, freshId, freshId2, now);
      resp, reply, sent, cart := Turn(message, sessionId, state, search, chat, render, placed, now, key, before, table);
    }
  }
}
