/**
 * The home page component's state and the handlers that change it: the catalogue
 * loader, `updateURL` and the four filter callbacks.
 */
module HomePage {
  import opened Wrappers
  import opened Text
  import opened Catalog
  import opened Filtering
  import opened Selection
  import opened UrlSync

  class HomePageState {
    var products: seq<Product>
    var searchQuery: string
    var selectedCategories: seq<string>
    var selectedBrands: seq<string>
    var priceRange: PriceRange
    var isLoading: bool

    /** The filter part of the state. */
    function Filters(): Criteria
      reads this
    {
      Criteria(searchQuery, selectedCategories, selectedBrands, priceRange)
    }

    /** The state of a freshly mounted page: empty catalogue, default filters, loading. */
    constructor ()
      ensures products == [] && Filters() == DefaultCriteria && isLoading
    {
      products := [];
      searchQuery := "";
      selectedCategories := [];
      selectedBrands := [];
      priceRange := PriceRange(0, 2000);
      isLoading := true;
    }

    /**
     * `loadProducts`: `fetched` is the parsed catalogue, or None when the fetch or
     * the JSON parsing failed, in which case nothing after it runs. The parameters
     * are read on top of the current filters; loading ends either way.
     */
    method LoadProducts(fetched: Option<seq<Product>>, params: seq<Param>)
      modifies this
      ensures !isLoading
      ensures fetched.None? ==> products == old(products) && Filters() == old(Filters())
      ensures fetched.Some? ==> products == fetched.value && Filters() == ApplyParams(old(Filters()), params)
    {
      if fetched.Some? {
        products := fetched.value;

        var categoryParam := Get(params, "category");
        if IsSet(categoryParam) {
          selectedCategories := [categoryParam.value];
        }

        var priceParam := Get(params, "price");
        if IsSet(priceParam) {
          var bounds := ParsePrice(priceParam.value);
          if bounds.Some? {
            priceRange := bounds.value;
          }
        }

        var brandParam := Get(params, "brand");
        if IsSet(brandParam) {
          selectedBrands := [brandParam.value];
        }

        var searchParam := Get(params, "search");
        if IsSet(searchParam) {
          searchQuery := searchParam.value;
        }
      }
      isLoading := false;
    }

    /** `updateURL`: sets the non-default parameters one by one and returns the address to push. */
    method UpdateURL() returns (href: Href)
      ensures href == HrefOf(QueryOf(Filters()))
    {
      ghost var c := Filters();
      var params: seq<Param> := [];
      if |selectedCategories| > 0 {
        params := SetParam(params, "category", selectedCategories[0]);
      }
      ghost var a := Entry(|c.categories| > 0, "category", First(c.categories));
      assert params == a;
      if priceRange.lo != 0 || priceRange.hi != 2000 {
        EntryLacksOther(|c.categories| > 0, "category", First(c.categories), "price");
        params := SetParam(params, "price", PriceText(priceRange));
      }
      ghost var b := Entry(c.priceRange.lo != 0 || c.priceRange.hi != 2000, "price", PriceText(c.priceRange));
      assert params == a + b;
      if |selectedBrands| > 0 {
        EntryLacksOther(|c.categories| > 0, "category", First(c.categories), "brand");
        EntryLacksOther(c.priceRange.lo != 0 || c.priceRange.hi != 2000, "price", PriceText(c.priceRange), "brand");
        GetConcat(a, b, "brand");
        params := SetParam(params, "brand", selectedBrands[0]);
      }
      ghost var d := Entry(|c.brands| > 0, "brand", First(c.brands));
      assert params == a + b + d;
      if searchQuery != "" {
        EntryLacksOther(|c.categories| > 0, "category", First(c.categories), "search");
        EntryLacksOther(c.priceRange.lo != 0 || c.priceRange.hi != 2000, "price", PriceText(c.priceRange), "search");
        EntryLacksOther(|c.brands| > 0, "brand", First(c.brands), "search");
        GetConcat(a, b, "search");
        GetConcat(a + b, d, "search");
        params := SetParam(params, "search", searchQuery);
      }
      assert params == QueryOf(c);
      href := if params == [] then Root else WithQuery(params);
    }

    /** The category checkbox: toggles the category's membership in the selection. */
    method HandleCategoryChange(category: string)
      modifies this
      ensures selectedCategories == Toggle(old(selectedCategories), category)
      ensures category in selectedCategories <==> category !in old(selectedCategories)
      ensures products == old(products) && searchQuery == old(searchQuery)
      ensures selectedBrands == old(selectedBrands) && priceRange == old(priceRange)
      ensures isLoading == old(isLoading)
    {
      selectedCategories := Toggle(selectedCategories, category);
    }

    /** The brand checkbox: toggles the brand's membership in the selection. */
    method HandleBrandChange(brand: string)
      modifies this
      ensures selectedBrands == Toggle(old(selectedBrands), brand)
      ensures brand in selectedBrands <==> brand !in old(selectedBrands)
      ensures products == old(products) && searchQuery == old(searchQuery)
      ensures selectedCategories == old(selectedCategories) && priceRange == old(priceRange)
      ensures isLoading == old(isLoading)
    {
      selectedBrands := Toggle(selectedBrands, brand);
    }

    /** The side bar's price callback stores the pair it is given. */
    method HandlePriceChange(value: PriceRange)
      modifies this
      ensures Filters() == old(Filters()).(priceRange := value)
      ensures products == old(products) && isLoading == old(isLoading)
    {
      priceRange := value;
    }

    /** The header's search callback stores the query. */
    method HandleSearch(query: string)
      modifies this
      ensures Filters() == old(Filters()).(searchQuery := query)
      ensures products == old(products) && isLoading == old(isLoading)
    {
      searchQuery := query;
    }
  }
}
