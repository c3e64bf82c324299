/**
 * OrderIntentAdvisor: a fixed-priority, first-match chain of keyword tests on
 * the folded message, yielding one of the nine order intents.
 */
module Intent {
  import opened Text
  import opened Folding

  datatype OrderIntent =
    | AskMenu | AddToCart | ViewCart | RemoveFromCart | UpdateQuantity
    | ConfirmOrder | Cancel | Greeting | Unknown

  const GreetingKeywords: seq<string> := ["xin chào", "chào", "hello", "hi", "chào bạn", "chào em"]
  const ViewCartKeywords: seq<string> := ["giỏ hàng", "cart", "đơn hàng", "xem giỏ", "giỏ của tôi", "tôi đã chọn gì"]
  const ConfirmKeywords: seq<string> :=
    ["xác nhận", "đặt hàng", "order", "ok", "đồng ý", "thanh toán", "checkout", "tôi muốn đặt"]
  const CancelKeywords: seq<string> := ["hủy", "cancel", "xóa", "bỏ", "không cần", "thôi"]
  const RemoveCartKeywords: seq<string> := ["xóa", "bỏ", "remove", "không cần", "bớt"]
  const MenuQuestionKeywords: seq<string> := ["menu", "món", "có gì", "bán gì", "giá", "bao nhiêu", "thế nào"]

  /** keywords.stream().anyMatch(s::contains) */
  predicate AnyMatch(s: string, keywords: seq<string>) {
    exists k :: k in keywords && Contains(s, k)
  }

  // The is*Intent predicates each fold their argument again.

  predicate IsGreetingIntent(message: string) { AnyMatch(Fold(message), GreetingKeywords) }
  predicate IsViewCartIntent(message: string) { AnyMatch(Fold(message), ViewCartKeywords) }
  predicate IsConfirmIntent(message: string) { AnyMatch(Fold(message), ConfirmKeywords) }
  predicate IsCancelIntent(message: string) { AnyMatch(Fold(message), CancelKeywords) }
  predicate IsRemoveFromCartIntent(message: string) { AnyMatch(Fold(message), RemoveCartKeywords) }
  predicate IsMenuQuestionIntent(message: string) { AnyMatch(Fold(message), MenuQuestionKeywords) }

  predicate IsAddToCartIntent(message: string) {
    var n := Fold(message);
    MatchesDigitPattern(n) || Contains(n, "cho tôi") || Contains(n, "tôi muốn")
    || Contains(n, "lấy") || Contains(n, "mua") || Contains(n, "đặt")
  }

  /**
   * detectIntent. A null message is the empty string here (both are blank);
   * `cartNonEmpty` stands for `state != null && !state.getCartItems().isEmpty()`.
   */
  function DetectIntent(message: string, cartNonEmpty: bool): (r: OrderIntent)
    ensures IsBlank(message) ==> r == Unknown
    ensures r == RemoveFromCart ==> cartNonEmpty
    ensures r != UpdateQuantity
  {
    FoldIdempotent(message);
    if IsBlank(message) then Unknown
    else
      var normalized := Fold(message);
      if IsGreetingIntent(normalized) then Greeting
      else if IsViewCartIntent(normalized) then ViewCart
      else if IsCancelIntent(normalized) then Cancel
      else if IsConfirmIntent(normalized) then ConfirmOrder
      else if cartNonEmpty && IsRemoveFromCartIntent(normalized) then RemoveFromCart
      else if IsMenuQuestionIntent(normalized) then AskMenu
      else if IsAddToCartIntent(normalized) then AddToCart
      else if cartNonEmpty && MatchesDigitPattern(normalized) then UpdateQuantity
      else Unknown
  }

  /**
   * The same chain with only the keywords that a folded string can contain:
   * every keyword written with a marked letter or đ is gone.
   */
  function LiveIntent(folded: string, cartNonEmpty: bool): OrderIntent {
    if Contains(folded, "hello") || Contains(folded, "hi") then Greeting
    else if Contains(folded, "cart") then ViewCart
    else if Contains(folded, "cancel") then Cancel
    else if Contains(folded, "order") || Contains(folded, "ok") || Contains(folded, "checkout") then ConfirmOrder
    else if cartNonEmpty && Contains(folded, "remove") then RemoveFromCart
    else if Contains(folded, "menu") then AskMenu
    else if MatchesDigitPattern(folded) || Contains(folded, "mua") then AddToCart
    else Unknown
  }

  /** A keyword holding a marked letter never occurs in a folded string. */
  lemma MarkedKeywordNeverMatches(folded: string, keyword: string, c: char)
    requires IsFolded(folded) && c in keyword && IsMarked(c)
    ensures !Contains(folded, keyword)
  {
    if Contains(folded, keyword) {
      ContainsCharOf(folded, keyword, c);
    }
  }

  /** A keyword starting with a non-whitespace char never occurs in a blank string. */
  lemma KeywordNotInBlank(s: string, keyword: string)
    requires IsBlank(s) && |keyword| > 0 && !IsWhitespace(keyword[0])
    ensures !Contains(s, keyword)
  {
    if Contains(s, keyword) {
      ContainsCharOf(s, keyword, keyword[0]);
    }
  }

  /** Of the greeting keywords only "hello" and "hi" can match a folded message. */
  lemma LiveGreetingKeywords(f: string)
    requires IsFolded(f)
    ensures AnyMatch(f, GreetingKeywords) <==> Contains(f, "hello") || Contains(f, "hi")
  {
    MarkedKeywordNeverMatches(f, "xin chào", 'à');
    MarkedKeywordNeverMatches(f, "chào", 'à');
    MarkedKeywordNeverMatches(f, "chào bạn", 'à');
    MarkedKeywordNeverMatches(f, "chào em", 'à');
  }

  /** Of the view-cart keywords only "cart" can match a folded message. */
  lemma LiveViewCartKeywords(f: string)
    requires IsFolded(f)
    ensures AnyMatch(f, ViewCartKeywords) <==> Contains(f, "cart")
  {
    MarkedKeywordNeverMatches(f, "giỏ hàng", 'ỏ');
    MarkedKeywordNeverMatches(f, "đơn hàng", 'đ');
    MarkedKeywordNeverMatches(f, "xem giỏ", 'ỏ');
    MarkedKeywordNeverMatches(f, "giỏ của tôi", 'ỏ');
    MarkedKeywordNeverMatches(f, "tôi đã chọn gì", 'ô');
  }

  /** Of the confirm keywords only "order", "ok" and "checkout" can match a folded message. */
  lemma LiveConfirmKeywords(f: string)
    requires IsFolded(f)
    ensures AnyMatch(f, ConfirmKeywords) <==>
              Contains(f, "order") || Contains(f, "ok") || Contains(f, "checkout")
  {
    MarkedKeywordNeverMatches(f, "xác nhận", 'á');
    MarkedKeywordNeverMatches(f, "đặt hàng", 'đ');
    MarkedKeywordNeverMatches(f, "đồng ý", 'đ');
    MarkedKeywordNeverMatches(f, "thanh toán", 'á');
    MarkedKeywordNeverMatches(f, "tôi muốn đặt", 'ô');
  }

  /** Of the cancel keywords only "cancel" can match a folded message. */
  lemma LiveCancelKeywords(f: string)
    requires IsFolded(f)
    ensures AnyMatch(f, CancelKeywords) <==> Contains(f, "cancel")
  {
    MarkedKeywordNeverMatches(f, "hủy", 'ủ');
    MarkedKeywordNeverMatches(f, "xóa", 'ó');
    MarkedKeywordNeverMatches(f, "bỏ", 'ỏ');
    MarkedKeywordNeverMatches(f, "không cần", 'ô');
    MarkedKeywordNeverMatches(f, "thôi", 'ô');
  }

  /** Of the remove keywords only "remove" can match a folded message. */
  lemma LiveRemoveKeywords(f: string)
    requires IsFolded(f)
    ensures AnyMatch(f, RemoveCartKeywords) <==> Contains(f, "remove")
  {
    MarkedKeywordNeverMatches(f, "xóa", 'ó');
    MarkedKeywordNeverMatches(f, "bỏ", 'ỏ');
    MarkedKeywordNeverMatches(f, "không cần", 'ô');
    MarkedKeywordNeverMatches(f, "bớt", 'ớ');
  }

  /** Of the menu keywords only "menu" can match a folded message. */
  lemma LiveMenuKeywords(f: string)
    requires IsFolded(f)
    ensures AnyMatch(f, MenuQuestionKeywords) <==> Contains(f, "menu")
  {
    MarkedKeywordNeverMatches(f, "món", 'ó');
    MarkedKeywordNeverMatches(f, "có gì", 'ó');
    MarkedKeywordNeverMatches(f, "bán gì", 'á');
    MarkedKeywordNeverMatches(f, "giá", 'á');
    MarkedKeywordNeverMatches(f, "bao nhiêu", 'ê');
    MarkedKeywordNeverMatches(f, "thế nào", 'ế');
  }

  /** Of the add phrases only "mua" can match a folded message. */
  lemma LiveAddPhrases(f: string)
    requires IsFolded(f)
    ensures (Contains(f, "cho tôi") || Contains(f, "tôi muốn") || Contains(f, "lấy")
             || Contains(f, "mua") || Contains(f, "đặt")) <==> Contains(f, "mua")
  {
    MarkedKeywordNeverMatches(f, "cho tôi", 'ô');
    MarkedKeywordNeverMatches(f, "tôi muốn", 'ô');
    MarkedKeywordNeverMatches(f, "lấy", 'ấ');
    MarkedKeywordNeverMatches(f, "đặt", 'đ');
  }

  /** A blank string matches none of the live rules. */
  lemma LiveIntentOfBlank(s: string, cartNonEmpty: bool)
    requires IsBlank(s)
    ensures LiveIntent(s, cartNonEmpty) == Unknown
  {
    KeywordNotInBlank(s, "hello");
    KeywordNotInBlank(s, "hi");
    KeywordNotInBlank(s, "cart");
    KeywordNotInBlank(s, "cancel");
    KeywordNotInBlank(s, "order");
    KeywordNotInBlank(s, "ok");
    KeywordNotInBlank(s, "checkout");
    KeywordNotInBlank(s, "remove");
    KeywordNotInBlank(s, "menu");
    KeywordNotInBlank(s, "mua");
    if HasDigit(s) {
      var i :| 0 <= i < |s| && IsDigit(s[i]);
      assert IsWhitespace(s[i]);
    }
  }

  /**
   * detectIntent is the live chain applied to the folded message: the result
   * depends only on the fold of the message and on cart emptiness, and no
   * marked keyword ever takes part.
   */
  lemma DetectIntentIsLive(message: string, cartNonEmpty: bool)
    ensures DetectIntent(message, cartNonEmpty) == LiveIntent(Fold(message), cartNonEmpty)
  {
    FoldIdempotent(message);
    var f := Fold(message);
    LiveGreetingKeywords(f);
    LiveViewCartKeywords(f);
    LiveConfirmKeywords(f);
    LiveCancelKeywords(f);
    LiveRemoveKeywords(f);
    LiveMenuKeywords(f);
    LiveAddPhrases(f);
    if IsBlank(message) {
      FoldOfBlank(message);
      LiveIntentOfBlank(Fold(message), cartNonEmpty);
    }
  }

  /** Two messages with the same fold get the same intent. */
  lemma DetectIntentDependsOnFold(m1: string, m2: string, cartNonEmpty: bool)
    requires Fold(m1) == Fold(m2)
    ensures DetectIntent(m1, cartNonEmpty) == DetectIntent(m2, cartNonEmpty)
  {
    DetectIntentIsLive(m1, cartNonEmpty);
    DetectIntentIsLive(m2, cartNonEmpty);
  }

  /** Containment, not word matching: any message whose fold contains "hi" is a greeting. */
  lemma HiMeansGreeting(message: string, cartNonEmpty: bool)
    requires Contains(Fold(message), "hi")
    ensures DetectIntent(message, cartNonEmpty) == Greeting
  {
    DetectIntentIsLive(message, cartNonEmpty);
  }

  /** "bao nhiêu" (how much) folds to "bao nhieu", which contains "hi". */
  lemma FoldOfHowMuch(m: string)
    requires m == "bao nhiêu"
    ensures Contains(Fold(m), "hi")
  {
    var f := FoldChars(m);
    assert m[0] == 'b' && m[5] == 'h' && m[6] == 'i' && m[8] == 'u';
    PlainLetterFolds(m[0]);
    PlainLetterFolds(m[5]);
    PlainLetterFolds(m[6]);
    PlainLetterFolds(m[8]);
    TrimUnpadded(f);
    assert OccursAt(f, "hi", 5);
    ContainsAt(f, "hi");
  }

  /** Asking "bao nhiêu" (how much) is classified as a greeting. */
  lemma HowMuchIsGreeting(m: string, cartNonEmpty: bool)
    requires m == "bao nhiêu"
    ensures DetectIntent(m, cartNonEmpty) == Greeting
  {
    FoldOfHowMuch(m);
    HiMeansGreeting(m, cartNonEmpty);
  }

  /** Rule priority: a message naming both the cart and cancel is a cart view. */
  lemma ViewCartBeforeCancel(message: string, cartNonEmpty: bool)
    requires Contains(Fold(message), "cart") && Contains(Fold(message), "cancel")
    requires !Contains(Fold(message), "hello") && !Contains(Fold(message), "hi")
    ensures DetectIntent(message, cartNonEmpty) == ViewCart
  {
    DetectIntentIsLive(message, cartNonEmpty);
  }
}
