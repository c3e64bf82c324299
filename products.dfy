/**
 * ProductService: the catalog search behind the POS grid, and the writes that
 * keep the menu's vector index in step with the product table.
 *
 * `searchProducts` narrows the available menu to a category, unless the
 * category is null, blank or "all", and then to the names containing the
 * search text, ignoring case. The product table is a map from id to product.
 * The vector index is a second map holding the products it has a document
 * for. The index service swallows its own errors, so whether an index call
 * succeeds is a parameter, and a failed call leaves the index as it was.
 */
module Products {
  import opened Wrappers
  import opened Text
  import opened Catalog
  import opened Lists

  /** IllegalArgumentException("Product not found"). */
  datatype ProductError = ProductNotFound

  // ---------------------------------------------------------------------------
  // The search.

  /** A category argument that selects the whole available menu: null (modelled
    * as ""), blank, or "all" in any case. */
  predicate SelectsAll(category: string) {
    IsBlank(category) || EqualsIgnoreCase(category, "all")
  }

  /** findByCategoryIgnoreCaseAndAvailableTrue's test on one product. */
  predicate InCategory(p: Product, category: string) {
    p.available && EqualsIgnoreCase(p.category, category)
  }

  /** The base list: findAllAvailable, or the category query. `rows` is the
    * product table in the order the database sorts it by name. */
  function BaseList(rows: seq<Product>, category: string): seq<Product> {
    if SelectsAll(category) then Filter(rows, (p: Product) => p.available)
    else Filter(rows, (p: Product) => InCategory(p, category))
  }

  /** The name test: the lower-cased name contains the lower-cased search text. */
  predicate NameMatches(p: Product, keyword: string) {
    Contains(Lower(p.name), keyword)
  }

  /** The search step alone: a null (modelled as "") or blank search keeps the
    * base list; any other keeps the products whose name matches, in order. */
  function NarrowByName(base: seq<Product>, search: string): seq<Product> {
    if IsBlank(search) then base
    else Filter(base, (p: Product) => NameMatches(p, Lower(search)))
  }

  /** searchProducts: exactly the available products of the category (every
    * category when it selects all) whose name matches a non-blank search. */
  function SearchProducts(rows: seq<Product>, category: string, search: string): (r: seq<Product>)
    ensures |r| <= |rows|
    ensures IsBlank(search) ==> r == BaseList(rows, category)
    ensures forall p :: p in r <==>
      p in rows && p.available
      && (SelectsAll(category) || EqualsIgnoreCase(p.category, category))
      && (IsBlank(search) || Contains(Lower(p.name), Lower(search)))
  {
    NarrowByName(BaseList(rows, category), search)
  }

  /** getAvailableProducts: a search with a null search text. */
  function GetAvailableProducts(rows: seq<Product>, category: string): (r: seq<Product>)
    ensures r == BaseList(rows, category)
  {
    SearchProducts(rows, category, "")
  }

  /** The result keeps the table's order and never adds a product: it is a
    * subsequence of the base list, and so of the table. */
  lemma SearchIsSubsequence(rows: seq<Product>, category: string, search: string)
    ensures IsSubsequence(SearchProducts(rows, category, search), BaseList(rows, category))
    ensures IsSubsequence(SearchProducts(rows, category, search), rows)
  {
    var base := BaseList(rows, category);
    if SelectsAll(category) {
      FilterIsSubsequence(rows, (p: Product) => p.available);
    } else {
      FilterIsSubsequence(rows, (p: Product) => InCategory(p, category));
    }
    if !IsBlank(search) {
      FilterIsSubsequence(base, (p: Product) => NameMatches(p, Lower(search)));
      SubsequenceTransitive(SearchProducts(rows, category, search), base, rows);
    } else {
      SubsequenceReflexive(base);
    }
  }

  /** "all", "ALL" and "All" select the same list as no category at all. */
  lemma AllIgnoresCase(rows: seq<Product>, category: string, search: string)
    requires EqualsIgnoreCase(category, "all")
    ensures SearchProducts(rows, category, search) == SearchProducts(rows, "", search)
  {
  }

  /** Searching the result again with the same text returns it unchanged. */
  lemma SearchAgainIsStable(rows: seq<Product>, category: string, search: string)
    ensures NarrowByName(SearchProducts(rows, category, search), search) == SearchProducts(rows, category, search)
  {
    if !IsBlank(search) {
      FilterIdempotent(BaseList(rows, category), (p: Product) => NameMatches(p, Lower(search)));
    }
  }

  /** The search text's case does not matter. */
  lemma SearchIgnoresCase(rows: seq<Product>, category: string, search: string)
    ensures SearchProducts(rows, category, Upper(search)) == SearchProducts(rows, category, search)
  {
    forall i | 0 <= i < |search|
      ensures Lower(Upper(search))[i] == Lower(search)[i]
    {
      CaseRoundTrip(search[i]);
    }
    assert Lower(Upper(search)) == Lower(search);
    assert IsBlank(Upper(search)) == IsBlank(search) by {
      forall i | 0 <= i < |search|
        ensures IsWhitespace(Upper(search)[i]) == IsWhitespace(search[i])
      {
        UpperKeepsWhitespace(search[i]);
      }
    }
  }

  /** Upper-casing neither makes nor unmakes a whitespace char. */
  lemma UpperKeepsWhitespace(c: char)
    ensures IsWhitespace(UpperChar(c)) == IsWhitespace(c)
  {
  }

  // ---------------------------------------------------------------------------
  // The writes and the index.

  class ProductService {
    var products: map<int, Product>
    var index: map<int, Product>

    /** Every product is stored under its own id. */
    ghost predicate Valid()
      reads this
    {
      forall id :: id in products ==> products[id].id == id
    }

    /** The index holds exactly the available stored products, as stored. */
    ghost predicate IndexInSync()
      reads this
    {
      (forall id :: id in index <==> id in products && products[id].available)
      && forall id :: id in index ==> index[id] == products[id]
    }

    constructor ()
      ensures products == map[] && index == map[] && Valid() && IndexInSync()
    {
      products := map[];
      index := map[];
    }

    /** save: stores the product, then writes its document into the index when
      * it is available and removes it when not. */
    method Save(product: Product, indexReachable: bool) returns (saved: Product)
      requires Valid()
      modifies this
      ensures Valid()
      ensures saved == product && products == old(products)[product.id := product]
      ensures indexReachable && product.available ==> index == old(index)[product.id := product]
      ensures indexReachable && !product.available ==> index == old(index) - {product.id}
      ensures !indexReachable ==> index == old(index)
      ensures old(IndexInSync()) && indexReachable ==> IndexInSync()
    {
      products := products[product.id := product];
      saved := product;
      if indexReachable {
        if saved.available {
          index := index[saved.id := saved];
        } else {
          index := index - {saved.id};
        }
      }
    }

    /** delete: removes the row (a missing id is ignored), then the document. */
    method Delete(id: int, indexReachable: bool)
      requires Valid()
      modifies this
      ensures Valid()
      ensures products == old(products) - {id}
      ensures index == if indexReachable then old(index) - {id} else old(index)
      ensures old(IndexInSync()) && indexReachable ==> IndexInSync()
    {
      products := products - {id};
      if indexReachable {
        index := index - {id};
      }
    }

    /** getById: the stored product, or "Product not found". */
    method GetById(id: int) returns (r: Result<Product, ProductError>)
      requires Valid()
      ensures r.Ok? <==> id in products
      ensures r.Ok? ==> r.value == products[id] && r.value.id == id
      ensures r.Err? ==> r.error == ProductNotFound
    {
      if id in products {
        return Ok(products[id]);
      }
      return Err(ProductNotFound);
    }
  }
}
