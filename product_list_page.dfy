/**
 * The catalog screen with category, price and search filters: the filter-then-sort effect,
 * the price inputs' fallbacks, and the pagination it shares with the simpler list.
 */
module ProductListPage {
  import opened Wrappers
  import opened Text
  import opened Seqs
  import opened Catalog

  /** Whether a product survives all three filters. */
  predicate Keeps(p: Product, selectedCategory: string, min: real, max: real, searchQuery: string) {
    InCategory(p, selectedCategory) && InPriceRange(p, min, max)
    && (IsBlank(searchQuery) || MatchesSearch(p, SearchTerm(searchQuery)))
  }

  /** The products the screen lists before sorting, as one filter over the catalog. */
  function FilteredProducts(products: seq<Product>, selectedCategory: string, min: real, max: real,
                            searchQuery: string): seq<Product>
  {
    Filter(products, (p: Product) => Keeps(p, selectedCategory, min, max, searchQuery))
  }

  /** The listed products are exactly the catalog's products that pass every filter, and they
      keep the catalog's relative order. */
  lemma FilteredProductsSpec(products: seq<Product>, selectedCategory: string, min: real, max: real,
                             searchQuery: string)
    ensures var r := FilteredProducts(products, selectedCategory, min, max, searchQuery);
      && (forall p :: p in r <==> p in products && Keeps(p, selectedCategory, min, max, searchQuery))
      && IsSubsequence(r, products)
  {
    var keep := (p: Product) => Keeps(p, selectedCategory, min, max, searchQuery);
    FilterIsSubsequence(products, keep);
    forall p | p in products && keep(p) ensures p in Filter(products, keep) {
      var i :| 0 <= i < |products| && products[i] == p;
    }
  }

  /** The three filters applied one after another, as the effect does, give the single
      filter above. */
  lemma FilterStepsCompose(products: seq<Product>, selectedCategory: string, min: real, max: real,
                           searchQuery: string)
    ensures var byCategory := if selectedCategory != "" then
                                Filter(products, (p: Product) => p.category == selectedCategory)
                              else products;
      var byPrice := Filter(byCategory, (p: Product) => InPriceRange(p, min, max));
      var bySearch := if !IsBlank(searchQuery) then
                        Filter(byPrice, (p: Product) => MatchesSearch(p, SearchTerm(searchQuery)))
                      else byPrice;
      bySearch == FilteredProducts(products, selectedCategory, min, max, searchQuery)
  {
    var cat := (p: Product) => InCategory(p, selectedCategory);
    var price := (p: Product) => InPriceRange(p, min, max);
    var catPrice := (p: Product) => InCategory(p, selectedCategory) && InPriceRange(p, min, max);
    var search := (p: Product) => MatchesSearch(p, SearchTerm(searchQuery));
    var keep := (p: Product) => Keeps(p, selectedCategory, min, max, searchQuery);
    if selectedCategory != "" {
      assert Filter(products, (p: Product) => p.category == selectedCategory) == Filter(products, cat) by {
        FilterCongruent(products, (p: Product) => p.category == selectedCategory, cat);
      }
    } else {
      FilterKeepsAll(products, cat);
    }
    FilterFilter(products, cat, price, catPrice);
    if !IsBlank(searchQuery) {
      FilterFilter(products, catPrice, search, keep);
    } else {
      FilterCongruent(products, catPrice, keep);
    }
  }

  /** The filter-then-sort effect: copy the catalog, narrow it by category, price and search
      in turn, and sort what remains in place by the chosen option. */
  method ApplyQuery(products: seq<Product>, selectedCategory: string, min: real, max: real,
                    searchQuery: string, sortBy: string) returns (sortedProducts: seq<Product>)
    ensures multiset(sortedProducts) == multiset(FilteredProducts(products, selectedCategory, min, max, searchQuery))
    ensures SortedByRank(sortedProducts, sortBy)
  {
    var sorted := products;
    if selectedCategory != "" {
      sorted := Filter(sorted, (p: Product) => p.category == selectedCategory);
    }
    sorted := Filter(sorted, (p: Product) => InPriceRange(p, min, max));
    if !IsBlank(searchQuery) {
      sorted := Filter(sorted, (p: Product) => MatchesSearch(p, SearchTerm(searchQuery)));
    }
    FilterStepsCompose(products, selectedCategory, min, max, searchQuery);
    sortedProducts := SortedCopy(sorted, sortBy);
  }

  /** `parseFloat(value) || 0` for the minimum price: an unreadable entry (`None`) and 0 both
      give 0. */
  function MinPriceFromInput(value: Option<real>): real {
    if value.None? || value.value == 0.0 then 0.0 else value.value
  }

  /** `parseFloat(value) || 10000` for the maximum price: an unreadable entry and also an
      entered 0 both give 10000. */
  function MaxPriceFromInput(value: Option<real>): real {
    if value.None? || value.value == 0.0 then 10000.0 else value.value
  }

  /** An entered number is used as typed except 0, which the maximum field replaces by 10000:
      a maximum of 0 lifts the upper bound instead of excluding everything. */
  lemma PriceInputFallbacks(value: Option<real>)
    ensures value.Some? && value.value != 0.0 ==>
      MinPriceFromInput(value) == value.value && MaxPriceFromInput(value) == value.value
    ensures value.None? ==> MinPriceFromInput(value) == 0.0 && MaxPriceFromInput(value) == 10000.0
    ensures MaxPriceFromInput(Some(0.0)) == 10000.0 && MinPriceFromInput(Some(0.0)) == 0.0
  {
  }
}
