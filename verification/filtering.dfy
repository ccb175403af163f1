/**
 * The home page's product filter (`filteredProducts`): a product is shown when it
 * matches the search text, the selected categories, the selected brands and the
 * price range, all at once.
 */
module Filtering {
  import opened Text
  import opened Seqs
  import opened Catalog

  /** The filter state of the home page. */
  datatype Criteria = Criteria(
    searchQuery: string,
    categories: seq<string>,
    brands: seq<string>,
    priceRange: PriceRange)

  /** The state of a freshly opened page: no search, nothing selected, `[0, 2000]`. */
  const DefaultCriteria := Criteria("", [], [], DefaultPriceRange)

  /** Case-insensitive search in the title, the description or the category; an empty query matches. */
  predicate MatchesSearch(p: Product, query: string)
  {
    || query == ""
    || Contains(Lower(p.title), Lower(query))
    || Contains(Lower(p.description), Lower(query))
    || Contains(Lower(p.category), Lower(query))
  }

  /** An empty selection imposes no restriction. */
  predicate MatchesCategory(p: Product, selected: seq<string>)
  {
    |selected| == 0 || p.category in selected
  }

  predicate MatchesBrand(p: Product, selected: seq<string>)
  {
    |selected| == 0 || p.brand in selected
  }

  /** Both bounds are inclusive. */
  predicate MatchesPrice(p: Product, range: PriceRange)
  {
    p.price >= range.lo as real && p.price <= range.hi as real
  }

  predicate Keeps(c: Criteria, p: Product)
  {
    && MatchesSearch(p, c.searchQuery)
    && MatchesCategory(p, c.categories)
    && MatchesBrand(p, c.brands)
    && MatchesPrice(p, c.priceRange)
  }

  /** `products.filter(...)`: the products the criteria keep, in catalogue order. */
  function FilterProducts(products: seq<Product>, c: Criteria): (r: seq<Product>)
    ensures |r| <= |products|
    ensures forall p :: p in r <==> p in products && Keeps(c, p)
    decreases |products|
  {
    if products == [] then []
    else (if Keeps(c, products[0]) then [products[0]] else []) + FilterProducts(products[1..], c)
  }

  /** The filtered list keeps the catalogue order. */
  lemma {:induction false} FilterIsSubsequence(products: seq<Product>, c: Criteria)
    ensures IsSubsequence(FilterProducts(products, c), products)
    decreases |products|
  {
    if products != [] {
      FilterIsSubsequence(products[1..], c);
      var rest := FilterProducts(products[1..], c);
      if Keeps(c, products[0]) {
        var r := FilterProducts(products, c);
        assert r == [products[0]] + rest;
        assert r[0] == products[0] && r[1..] == rest;
      } else {
        assert FilterProducts(products, c) == rest;
      }
    }
  }

  /** Every kept product appears exactly as often as in the catalogue; every other one not at all. */
  lemma {:induction false} FilterCounts(products: seq<Product>, c: Criteria, p: Product)
    ensures multiset(FilterProducts(products, c))[p] == if Keeps(c, p) then multiset(products)[p] else 0
    decreases |products|
  {
    if products != [] {
      FilterCounts(products[1..], c, p);
      assert products == [products[0]] + products[1..];
    }
  }

  /** Filtering an already filtered list with the same criteria changes nothing. */
  lemma {:induction false} FilterIdempotent(products: seq<Product>, c: Criteria)
    ensures FilterProducts(FilterProducts(products, c), c) == FilterProducts(products, c)
    decreases |products|
  {
    if products != [] {
      var rest := FilterProducts(products[1..], c);
      FilterIdempotent(products[1..], c);
      if Keeps(c, products[0]) {
        var r := [products[0]] + rest;
        assert FilterProducts(products, c) == r;
        assert r[0] == products[0] && r[1..] == rest;
        assert FilterProducts(r, c) == [products[0]] + FilterProducts(rest, c);
      } else {
        assert FilterProducts(products, c) == rest;
      }
    }
  }

  /**
   * With no search and no selection only the price range restricts: the products
   * kept are exactly those priced within the inclusive bounds.
   */
  lemma EmptySelectionsFilterByPriceOnly(products: seq<Product>, c: Criteria)
    requires c.searchQuery == "" && c.categories == [] && c.brands == []
    ensures forall p :: p in FilterProducts(products, c) <==>
      p in products && c.priceRange.lo as real <= p.price <= c.priceRange.hi as real
  {
  }

  /** With no search, no selection and every price within the range, the whole catalogue is shown in order. */
  lemma {:induction false} EmptyCriteriaKeepAll(products: seq<Product>, c: Criteria)
    requires c.searchQuery == "" && c.categories == [] && c.brands == []
    requires forall p :: p in products ==> MatchesPrice(p, c.priceRange)
    ensures FilterProducts(products, c) == products
    decreases |products|
  {
    if products != [] {
      EmptyCriteriaKeepAll(products[1..], c);
      assert [products[0]] + products[1..] == products;
    }
  }
}
