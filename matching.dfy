/**
 * ProductMatchingService: fuzzy product lookup by folded, space-free name.
 * A product matches a query when either normalized string contains the other
 * or their Levenshtein similarity exceeds 0.7.
 */
module Matching {
  import opened Wrappers
  import opened Text
  import opened Folding
  import opened Lists
  import opened Catalog
  import opened SimilarityScore

  /** The per-product test of findProductsByName, on normalized name and query. */
  predicate NamesMatch(normalizedName: string, normalizedQuery: string) {
    Contains(normalizedName, normalizedQuery) || Contains(normalizedQuery, normalizedName)
    || Similarity(normalizedName, normalizedQuery) > 0.7
  }

  /** The name test is symmetric in name and query. */
  lemma NamesMatchSymmetric(a: string, b: string)
    ensures NamesMatch(a, b) <==> NamesMatch(b, a)
  {
    SimilaritySymmetric(a, b);
  }

  /** Names that differ only in \s chars normalize to the same string, and so match. */
  lemma SpacingIgnored(name: string, query: string)
    requires RemoveRegexSpaces(name) == RemoveRegexSpaces(query)
    ensures Compact(name) == Compact(query)
    ensures NamesMatch(Compact(name), Compact(query))
  {
    RemoveSpacesFoldCommute(name);
    RemoveSpacesFoldCommute(query);
    ContainsAt(Compact(name), Compact(query));
    assert OccursAt(Compact(name), Compact(query), 0);
  }

  /** Deleting \s chars and folding commute: the fold neither makes nor unmakes \s. */
  lemma {:induction false} RemoveSpacesFoldCommute(s: string)
    ensures RemoveRegexSpaces(FoldChars(s)) == FoldChars(RemoveRegexSpaces(s))
    decreases |s|
  {
    if s != [] {
      RemoveSpacesFoldCommute(s[1..]);
      var f := FoldChars(s);
      assert f[0] == FoldLetter(s[0]);
      assert f[1..] == FoldChars(s[1..]);
      var head := if IsRegexSpace(s[0]) then [] else [s[0]];
      FoldCharsAppend(head, RemoveRegexSpaces(s[1..]));
    }
  }

  /** The filter test of findProductsByName for one product. */
  predicate ProductMatches(p: Product, normalizedQuery: string) {
    NamesMatch(Compact(p.name), normalizedQuery)
  }

  function MatchesQuery(normalizedQuery: string): Product -> bool {
    (p: Product) => ProductMatches(p, normalizedQuery)
  }

  /** findProductsByName: blank query gives nothing; otherwise the menu filtered in order. */
  function FindProductsByName(productName: string, menu: seq<Product>): (r: seq<Product>)
    ensures IsBlank(productName) ==> r == []
    ensures !IsBlank(productName) ==>
      forall p :: p in r <==> p in menu && ProductMatches(p, Compact(productName))
    ensures IsSubsequence(r, menu)
  {
    if IsBlank(productName) then []
    else
      var r := Filter(menu, MatchesQuery(Compact(productName)));
      FilterIsSubsequence(menu, MatchesQuery(Compact(productName)));
      r
  }

  /** matchProductFromNaturalLanguage: the first matching product in menu order, if any. */
  function MatchProductFromNaturalLanguage(text: string, menu: seq<Product>): (r: Option<Product>)
    ensures IsBlank(text) ==> r.None?
    ensures !IsBlank(text) && r.None? ==>
      forall p :: p in menu ==> !ProductMatches(p, Compact(text))
  {
    var matches := FindProductsByName(text, menu);
    if matches == [] then None else Some(matches[0])
  }

  /** A product found is the first one in menu order that matches. */
  lemma MatchIsFirst(text: string, menu: seq<Product>)
    ensures MatchProductFromNaturalLanguage(text, menu).Some? ==>
      exists i :: 0 <= i < |menu| && menu[i] == MatchProductFromNaturalLanguage(text, menu).value
        && ProductMatches(menu[i], Compact(text))
        && (forall j :: 0 <= j < i ==> !ProductMatches(menu[j], Compact(text)))
  {
    var keep := MatchesQuery(Compact(text));
    FilterHead(menu, keep);
  }

  function ProductContains(normalizedQuery: string): Product -> bool {
    (p: Product) => Contains(Compact(p.name), normalizedQuery)
  }

  /** suggestSimilarProducts: containment only, in menu order, at most five. */
  function SuggestSimilarProducts(partialName: string, menu: seq<Product>): (r: seq<Product>)
    ensures IsBlank(partialName) ==> r == []
    ensures |r| <= 5
    ensures forall p :: p in r ==> p in FindProductsByName(partialName, menu)
    ensures !IsBlank(partialName) ==>
      r == Take(Filter(menu, ProductContains(Compact(partialName))), 5)
  {
    if IsBlank(partialName) then []
    else
      var all := Filter(menu, ProductContains(Compact(partialName)));
      var r := Take(all, 5);
      assert forall p :: p in r ==> p in all;
      r
  }
}
