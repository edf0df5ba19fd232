/**
 * The simpler catalog list: search and sort only, then the same twelve-per-page
 * pagination.
 */
module ProductListComponent {
  import opened Text
  import opened Seqs
  import opened Catalog

  /** The search-then-sort effect: copy the catalog, keep the matches of a non-blank query,
      and sort the result in place by the chosen option. */
  method SearchAndSort(products: seq<Product>, searchQuery: string, sortBy: string)
    returns (sortedProducts: seq<Product>)
    ensures multiset(sortedProducts) == multiset(SearchFilter(products, searchQuery))
    ensures SortedByRank(sortedProducts, sortBy)
  {
    var sorted := products;
    if !IsBlank(searchQuery) {
      sorted := Filter(sorted, (p: Product) => MatchesSearch(p, SearchTerm(searchQuery)));
    }
    sortedProducts := SortedCopy(sorted, sortBy);
  }

  /** With a blank query the list holds every product of the catalog, each as often as
      there; with any other query it holds exactly the matching ones. */
  lemma SearchAndSortContents(products: seq<Product>, searchQuery: string, sortedProducts: seq<Product>)
    requires multiset(sortedProducts) == multiset(SearchFilter(products, searchQuery))
    ensures IsBlank(searchQuery) ==> multiset(sortedProducts) == multiset(products)
    ensures !IsBlank(searchQuery) ==>
      forall p :: p in sortedProducts <==> p in products && MatchesSearch(p, SearchTerm(searchQuery))
  {
    SearchFilterSpec(products, searchQuery);
    if !IsBlank(searchQuery) {
      forall p ensures p in sortedProducts <==> p in SearchFilter(products, searchQuery) {
        assert p in sortedProducts <==> p in multiset(sortedProducts);
        assert p in SearchFilter(products, searchQuery) <==> p in multiset(SearchFilter(products, searchQuery));
      }
    }
  }
}
