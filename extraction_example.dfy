/** The documented extraction example, "cho tôi 2 cà phê đen", worked through
  * step by step: the ordering phrase is found, its quantity and text are read,
  * and the text resolves to the menu's "cà phê đen" with quantity 2. */
module ExtractionExample {
  import opened Wrappers
  import opened Text
  import opened Folding
  import opened Catalog
  import opened Lists
  import opened OrderPattern
  import opened Extraction

  const Message: string := "cho tôi 2 cà phê đen"

  lemma ExampleKeyword()
    ensures KeywordEnd(Message, 0) == Some(7)
  {
    assert LiteralAt(Message, 0, "cho");
    assert SpaceRunEnd(Message, 3) == 4;
    assert LiteralAt(Message, 4, "tôi");
  }

  lemma {:induction false} LazySkips(s: string, a: nat, b: nat)
    requires a <= b <= |s|
    requires forall e :: a <= e < b ==> CloseEnd(s, e).None? && !IsLineTerminator(s[e])
    ensures LazyEnd(s, a) == LazyEnd(s, b)
    decreases b - a
  {
    if a < b {
      LazySkips(s, a + 1, b);
    }
  }

  lemma ExampleClose(e: nat)
    requires 11 <= e < 20
    ensures CloseEnd(Message, e).None? && !IsLineTerminator(Message[e])
  {
    if Message[e] == ' ' {
      assert SpaceRunEnd(Message, e) == e + 1;
      assert !CharMatches("và"[0], Message[e + 1]) && !CharMatches(","[0], Message[e + 1]);
    }
  }

  lemma ExampleLazy()
    ensures LazyEnd(Message, 11) == Some((20, 20))
  {
    forall e | 11 <= e < 20 ensures CloseEnd(Message, e).None? && !IsLineTerminator(Message[e]) {
      ExampleClose(e);
    }
    LazySkips(Message, 11, 20);
  }

  lemma ExampleMatch()
    ensures FindFrom(Message, 0, Phrase) == Some(Match(0, 8, 9, 10, 20, 20))
  {
    ExampleKeyword();
    assert SpaceRunEnd(Message, 7) == 8;
    assert DigitRunEnd(Message, 8) == 9;
    assert SpaceRunEnd(Message, 9) == 10;
    ExampleLazy();
    assert SpanFrom(Message, 10) == Some((20, 20));
    assert GapAndSpan(Message, 9, 10) == Some((10, 20, 20));
  }

  lemma ExampleNoMore()
    ensures FindFrom(Message, 20, Phrase).None?
  {
    assert KeywordEnd(Message, 20).None?;
  }

  /** A string contains itself. */
  lemma ContainsSelf(s: string)
    ensures Contains(s, s)
  {
    assert OccursAt(s, s, 0);
    ContainsAt(s, s);
  }

  lemma ExampleQuantity()
    ensures ParseInt(Message[8..9]) == Some(2)
  {
    assert Message[8..9] == "2";
    assert "2"[..0] == [];
  }

  lemma ExampleProduct(menu: seq<Product>)
    requires menu != [] && menu[0].name == "cà phê đen"
    ensures FirstMenuMatch(Fold(Trim(Message[10..20])), menu) == Some(menu[0])
  {
    var t := Message[10..20];
    assert t == "cà phê đen";
    TrimUnpadded(t);
    ContainsSelf(Fold(t));
    assert NameTest(Fold(t))(menu[0]);
    FirstMenuMatchIsFirst(Fold(t), menu, 0);
  }

  lemma ExampleItem(menu: seq<Product>)
    requires menu != [] && menu[0].name == "cà phê đen"
    ensures ItemOf(Message, Match(0, 8, 9, 10, 20, 20), menu) == Some(ExtractedItem(menu[0], 2, None))
  {
    ExampleMatch();
    ExampleQuantity();
    ExampleProduct(menu);
  }

  lemma ExamplePass(menu: seq<Product>)
    requires menu != [] && menu[0].name == "cà phê đen"
    ensures Pass(Message, Phrase, 0, menu) == [ExtractedItem(menu[0], 2, None)]
  {
    ExampleMatch();
    ExampleItem(menu);
    ExampleNoMore();
    assert Pass(Message, Phrase, 20, menu) == [];
    assert [ExtractedItem(menu[0], 2, None)] + [] == [ExtractedItem(menu[0], 2, None)];
  }

  /** The documented example: "cho tôi 2 cà phê đen", against a menu whose first
    * product is "cà phê đen", yields that product with quantity 2. */
  lemma ExampleOrder(menu: seq<Product>)
    requires menu != [] && menu[0].name == "cà phê đen"
    ensures Extract(Message, menu) == [ExtractedItem(menu[0], 2, None)]
  {
    ExamplePass(menu);
    assert !IsWhitespace(Message[0]);
  }
}
