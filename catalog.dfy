/**
 * The product catalog as both product-list screens see it: the product record, the
 * case-insensitive search, the sort keys, the in-place sort, the category list and the
 * twelve-per-page pagination.
 */
module Catalog {
  import opened Text
  import opened Seqs
  import opened Pricing

  /** A review as the product API and the review form produce it. */
  datatype Review = Review(rating: int, comment: string, reviewerName: string, date: string)

  /** The product fields the screens read. `createdAt` is the creation time as a number. */
  datatype Product = Product(
    id: int,
    title: string,
    description: string,
    category: string,
    brand: string,
    tags: seq<string>,
    price: real,
    discountPercentage: real,
    rating: real,
    stock: int,
    createdAt: int,
    reviews: seq<Review>)

  // ---------------------------------------------------------------------------
  // Search

  /** `field.toLowerCase().includes(term)`. */
  predicate FieldIncludes(field: string, term: string) {
    Includes(ToLower(field), term)
  }

  /** `tags.some((tag) => tag.toLowerCase().includes(term))`. */
  predicate AnyTagIncludes(tags: seq<string>, term: string) {
    exists i :: 0 <= i < |tags| && FieldIncludes(tags[i], term)
  }

  /** A product matches a (lower-cased) search term through its title, description,
      category, brand or one of its tags. */
  predicate MatchesSearch(p: Product, term: string) {
    FieldIncludes(p.title, term) || FieldIncludes(p.description, term)
    || FieldIncludes(p.category, term) || FieldIncludes(p.brand, term)
    || AnyTagIncludes(p.tags, term)
  }

  /** The term both screens search for: the query lower-cased but NOT trimmed. */
  function SearchTerm(query: string): string {
    ToLower(query)
  }

  /** The search step: a blank query keeps everything; any other keeps the matches. */
  function SearchFilter(products: seq<Product>, query: string): seq<Product> {
    if IsBlank(query) then products
    else Filter(products, (p: Product) => MatchesSearch(p, SearchTerm(query)))
  }

  /** A field matches exactly when the term occurs somewhere in its lower-cased text. */
  lemma FieldIncludesIffOccurs(field: string, term: string)
    ensures FieldIncludes(field, term) <==> exists i :: OccursAt(ToLower(field), term, i)
  {
    IncludesIffOccurs(ToLower(field), term);
  }

  /** A blank or whitespace-only query keeps every product in its original order; any other
      query keeps exactly the matching products, in order. */
  lemma SearchFilterSpec(products: seq<Product>, query: string)
    ensures IsBlank(query) ==> SearchFilter(products, query) == products
    ensures !IsBlank(query) ==>
      forall p :: p in SearchFilter(products, query) <==> p in products && MatchesSearch(p, SearchTerm(query))
    ensures IsSubsequence(SearchFilter(products, query), products)
  {
    if IsBlank(query) {
      IsSubsequenceReflexive(products);
    } else {
      FilterIsSubsequence(products, (p: Product) => MatchesSearch(p, SearchTerm(query)));
      var r := SearchFilter(products, query);
      forall p | p in products && MatchesSearch(p, SearchTerm(query)) ensures p in r {
        var i :| 0 <= i < |products| && products[i] == p;
      }
    }
  }

  lemma {:induction false} IsSubsequenceReflexive<T>(s: seq<T>)
    ensures IsSubsequence(s, s)
  {
    if s != [] {
      IsSubsequenceReflexive(s[1..]);
    }
  }

  /** The query is not trimmed before searching: " phone" (with its space) does not match a
      product titled "Phone" with no other text. */
  lemma UntrimmedQueryExample(p: Product)
    requires p.title == "Phone" && p.description == "" && p.category == "" && p.brand == ""
    requires p.tags == []
    ensures !IsBlank(" phone") && !MatchesSearch(p, SearchTerm(" phone"))
  {
    assert !IsWhitespace(" phone"[1]);
    assert ToLower("Phone") == "phone";
    assert !Includes("phone", ToLower(" phone"));
    assert !Includes("", ToLower(" phone"));
  }

  // ---------------------------------------------------------------------------
  // Sort keys

  /** The key the comparator of each sort option orders by, ascending: price for
      "price-low", negated price for "price-high", negated creation time for "newest", and
      negated rating for "popularity" and anything else. */
  function Rank(p: Product, sortBy: string): real {
    if sortBy == "price-low" then p.price
    else if sortBy == "price-high" then -p.price
    else if sortBy == "newest" then -(p.createdAt as real)
    else -p.rating
  }

  ghost predicate SortedByRank(s: seq<Product>, sortBy: string) {
    forall i, j :: 0 <= i < j < |s| ==> Rank(s[i], sortBy) <= Rank(s[j], sortBy)
  }

  /** What a sorted list means for each option: cheapest first, dearest first, newest first,
      best-rated first. */
  lemma SortedByRankMeaning(s: seq<Product>, sortBy: string)
    requires SortedByRank(s, sortBy)
    ensures sortBy == "price-low" ==> forall i, j :: 0 <= i < j < |s| ==> s[i].price <= s[j].price
    ensures sortBy == "price-high" ==> forall i, j :: 0 <= i < j < |s| ==> s[i].price >= s[j].price
    ensures sortBy == "newest" ==> forall i, j :: 0 <= i < j < |s| ==> s[i].createdAt >= s[j].createdAt
    ensures sortBy != "price-low" && sortBy != "price-high" && sortBy != "newest" ==>
      forall i, j :: 0 <= i < j < |s| ==> s[i].rating >= s[j].rating
  {
    forall i, j | 0 <= i < j < |s|
      ensures Rank(s[i], sortBy) <= Rank(s[j], sortBy)
    {
    }
  }

  /** `key` never decreases along `s`. */
  ghost predicate SortedBy<T>(s: seq<T>, key: T -> real) {
    forall i, j :: 0 <= i < j < |s| ==> key(s[i]) <= key(s[j])
  }

  /** `sorted.sort(comparator)` for a comparator that subtracts keys: sorts the array in
      place by `key`, ascending (insertion sort). */
  method SortByKey<T>(a: array<T>, key: T -> real)
    modifies a
    ensures SortedBy(a[..], key)
    ensures multiset(a[..]) == multiset(old(a[..]))
  {
    var i := 0;
    while i < a.Length
      invariant 0 <= i <= a.Length
      invariant SortedBy(a[..i], key)
      invariant multiset(a[..]) == multiset(old(a[..]))
    {
      InsertLast(a, i, key);
      i := i + 1;
    }
    assert a[..i] == a[..];
  }

  /** The state of an insertion step that is moving the element now at `j` leftwards:
      apart from that element, `s[..i+1]` is sorted, and that element's key is below every key
      to its right. */
  ghost predicate Inserting<T>(s: seq<T>, j: int, i: int, key: T -> real) {
    && 0 <= j <= i < |s|
    && (forall k, l :: 0 <= k < l <= i && k != j && l != j ==> key(s[k]) <= key(s[l]))
    && (forall l :: j < l <= i ==> key(s[j]) < key(s[l]))
  }

  /** Swapping the moving element with a larger left neighbour keeps the insertion state
      one place further left. */
  lemma SwapLeft<T>(s: seq<T>, j: int, i: int, key: T -> real)
    requires Inserting(s, j, i, key) && j > 0 && key(s[j - 1]) > key(s[j])
    ensures Inserting(s[j - 1 := s[j]][j := s[j - 1]], j - 1, i, key)
    ensures multiset(s[j - 1 := s[j]][j := s[j - 1]]) == multiset(s)
  {
    var t := s[j - 1 := s[j]][j := s[j - 1]];
    forall k, l | 0 <= k < l <= i && k != j - 1 && l != j - 1
      ensures key(t[k]) <= key(t[l])
    {
      if l == j {
        assert t[l] == s[j - 1];
        if k < j - 1 {
          assert key(s[k]) <= key(s[j - 1]);
        }
      } else if k == j {
        assert key(s[j - 1]) <= key(s[l]);
      }
    }
  }

  /** Once the moving element's left neighbour is not larger, `s[..i+1]` is sorted. */
  lemma InsertingDone<T>(s: seq<T>, j: int, i: int, key: T -> real)
    requires Inserting(s, j, i, key) && (j == 0 || key(s[j - 1]) <= key(s[j]))
    ensures SortedBy(s[..i + 1], key)
  {
    forall k, l | 0 <= k < l <= i ensures key(s[k]) <= key(s[l]) {
      if l == j && k < j - 1 {
        assert key(s[k]) <= key(s[j - 1]);
      }
    }
  }

  /** One insertion step: move `a[i]` left past the larger keys, so that `a[..i+1]` is sorted
      when `a[..i]` was. */
  method InsertLast<T>(a: array<T>, i: nat, key: T -> real)
    requires i < a.Length && SortedBy(a[..i], key)
    modifies a
    ensures SortedBy(a[..i + 1], key)
    ensures multiset(a[..]) == multiset(old(a[..]))
  {
    var j := i;
    while j > 0 && key(a[j - 1]) > key(a[j])
      invariant Inserting(a[..], j, i, key)
      invariant multiset(a[..]) == multiset(old(a[..]))
    {
      SwapLeft(a[..], j, i, key);
      a[j - 1], a[j] := a[j], a[j - 1];
      j := j - 1;
    }
    InsertingDone(a[..], j, i, key);
  }

  /** The list as an array, sorted in place by the option's key, read back: what
      `sorted.sort(comparator)` leaves in the local list. */
  method SortedCopy(s: seq<Product>, sortBy: string) returns (r: seq<Product>)
    ensures multiset(r) == multiset(s) && |r| == |s|
    ensures SortedByRank(r, sortBy)
  {
    var a := new Product[|s|](i requires 0 <= i < |s| => s[i]);
    assert a[..] == s;
    var key := (p: Product) => Rank(p, sortBy);
    SortByKey(a, key);
    r := a[..];
    assert forall i, j :: 0 <= i < j < |r| ==> key(r[i]) <= key(r[j]);
  }

  // ---------------------------------------------------------------------------
  // Categories

  /** The default `sort()` order on strings: lexicographic by character code. */
  predicate StrLess(a: string, b: string) {
    if a == [] then b != []
    else if b == [] then false
    else if a[0] != b[0] then a[0] < b[0]
    else StrLess(a[1..], b[1..])
  }

  lemma {:induction false} StrLessIrreflexive(a: string)
    ensures !StrLess(a, a)
  {
    if a != [] {
      StrLessIrreflexive(a[1..]);
    }
  }

  lemma {:induction false} StrLessTotal(a: string, b: string)
    requires a != b
    ensures StrLess(a, b) || StrLess(b, a)
  {
    if a != [] && b != [] && a[0] == b[0] {
      assert a == [a[0]] + a[1..] && b == [b[0]] + b[1..];
      StrLessTotal(a[1..], b[1..]);
    }
  }

  lemma {:induction false} StrLessTransitive(a: string, b: string, c: string)
    requires StrLess(a, b) && StrLess(b, c)
    ensures StrLess(a, c)
  {
    if a != [] && b != [] && c != [] && a[0] == b[0] && b[0] == c[0] {
      StrLessTransitive(a[1..], b[1..], c[1..]);
    }
  }

  ghost predicate StrictlyAscending(s: seq<string>) {
    forall i, j :: 0 <= i < j < |s| ==> StrLess(s[i], s[j])
  }

  /** Insert `x` into an ascending list unless it is already there. */
  function InsertUnique(x: string, s: seq<string>): (r: seq<string>)
    ensures forall y :: y in r <==> y == x || y in s
  {
    if s == [] then [x]
    else if x == s[0] then s
    else if StrLess(x, s[0]) then [x] + s
    else [s[0]] + InsertUnique(x, s[1..])
  }

  lemma {:induction false} InsertUniqueAscending(x: string, s: seq<string>)
    requires StrictlyAscending(s)
    ensures StrictlyAscending(InsertUnique(x, s))
  {
    if s == [] {
    } else if x == s[0] {
    } else if StrLess(x, s[0]) {
      var r := [x] + s;
      forall i, j | 0 <= i < j < |r| ensures StrLess(r[i], r[j]) {
        if i == 0 && j > 1 {
          StrLessTransitive(x, s[0], s[j - 1]);
        }
      }
    } else {
      StrLessTotal(x, s[0]);
      InsertUniqueAscending(x, s[1..]);
      var t := InsertUnique(x, s[1..]);
      var r := [s[0]] + t;
      forall i, j | 0 <= i < j < |r| ensures StrLess(r[i], r[j]) {
        if i == 0 {
          assert r[j] in t;
          assert r[j] == x || r[j] in s[1..];
        }
      }
    }
  }

  /** `[...new Set(products.map((p) => p.category))].sort()`. */
  function UniqueCategories(products: seq<Product>): seq<string> {
    if products == [] then []
    else InsertUnique(products[|products| - 1].category, UniqueCategories(products[..|products| - 1]))
  }

  /** The category list holds every category of the catalog and nothing else, in strictly
      ascending order (so without duplicates). */
  lemma {:induction false} UniqueCategoriesSpec(products: seq<Product>)
    ensures forall c :: c in UniqueCategories(products) <==> exists p :: p in products && p.category == c
    ensures StrictlyAscending(UniqueCategories(products))
  {
    if products != [] {
      var init := products[..|products| - 1];
      var last := products[|products| - 1];
      UniqueCategoriesSpec(init);
      InsertUniqueAscending(last.category, UniqueCategories(init));
      assert products == init + [last];
      forall c ensures c in UniqueCategories(products) <==> exists p :: p in products && p.category == c {
        if c in UniqueCategories(products) && c != last.category {
          var p :| p in init && p.category == c;
          assert p in products;
        }
        if exists p :: p in products && p.category == c {
          var p :| p in products && p.category == c;
          if p != last {
            assert p in init;
          }
        }
      }
    }
  }

  /** Ascending without repeats: no category is listed twice. */
  lemma StrictlyAscendingDistinct(s: seq<string>)
    requires StrictlyAscending(s)
    ensures forall i, j :: 0 <= i < j < |s| ==> s[i] != s[j]
  {
    forall i, j | 0 <= i < j < |s| ensures s[i] != s[j] {
      StrLessIrreflexive(s[i]);
    }
  }

  // ---------------------------------------------------------------------------
  // Pagination

  const ProductsPerPage: nat := 12

  /** `Math.ceil(n / productsPerPage)`. */
  function TotalPages(n: nat): (r: nat)
    ensures n == 0 <==> r == 0
    ensures r > 0 ==> ProductsPerPage * (r - 1) < n <= ProductsPerPage * r
  {
    (n + ProductsPerPage - 1) / ProductsPerPage
  }

  /** JavaScript's reading of a `slice` bound against a length: a negative bound counts
      from the end (never below 0), a positive one stops at the length. */
  function SliceBound(i: int, n: nat): (r: nat)
    ensures r <= n
  {
    if i < 0 then (if n + i < 0 then 0 else n + i) else if i > n then n else i
  }

  /** `s.slice(start, end)`. */
  function JsSlice<T>(s: seq<T>, start: int, end: int): seq<T> {
    var b := SliceBound(start, |s|);
    var e := SliceBound(end, |s|);
    if b < e then s[b..e] else []
  }

  /** The products page `currentPage` shows. */
  function CurrentPageItems<T>(s: seq<T>, currentPage: int): seq<T> {
    var startIndex := (currentPage - 1) * ProductsPerPage;
    JsSlice(s, startIndex, startIndex + ProductsPerPage)
  }

  /** Page `p` (from 1) shows the products at positions `(p-1)*12` up to, but excluding,
      `p*12`, cut off at the end of the list. */
  lemma CurrentPageItemsSpec<T>(s: seq<T>, p: int)
    requires p >= 1
    ensures var r := CurrentPageItems(s, p);
      var lo := (p - 1) * ProductsPerPage;
      && |r| == (if lo >= |s| then 0 else if lo + ProductsPerPage <= |s| then ProductsPerPage else |s| - lo)
      && forall k :: 0 <= k < |r| ==> r[k] == s[lo + k]
  {
  }

  /** Every product is on exactly one page: position `i` is entry `i % 12` of page
      `i / 12 + 1`, and that page exists. */
  lemma EveryProductOnItsPage<T>(s: seq<T>, i: nat)
    requires i < |s|
    ensures var p := i / ProductsPerPage + 1;
      1 <= p <= TotalPages(|s|)
      && i % ProductsPerPage < |CurrentPageItems(s, p)|
      && CurrentPageItems(s, p)[i % ProductsPerPage] == s[i]
  {
    var p := i / ProductsPerPage + 1;
    CurrentPageItemsSpec(s, p);
    assert (p - 1) * ProductsPerPage + i % ProductsPerPage == i;
  }

  /** The "Previous" button: one page back, never below 1. */
  function PrevPage(currentPage: int): int {
    if currentPage - 1 > 1 then currentPage - 1 else 1
  }

  /** The "Next" button: one page on, never past the last page. */
  function NextPage(currentPage: int, totalPages: int): int {
    if currentPage + 1 < totalPages then currentPage + 1 else totalPages
  }

  /** From any page in range the buttons stay in range and move by at most one page; each
      stays put exactly on the page where it is disabled. */
  lemma PageButtons(currentPage: int, totalPages: int)
    requires 1 <= currentPage <= totalPages
    ensures 1 <= PrevPage(currentPage) <= currentPage && currentPage - PrevPage(currentPage) <= 1
    ensures currentPage <= NextPage(currentPage, totalPages) <= totalPages
    ensures NextPage(currentPage, totalPages) - currentPage <= 1
    ensures PrevPage(currentPage) == currentPage <==> currentPage == 1
    ensures NextPage(currentPage, totalPages) == currentPage <==> currentPage == totalPages
  {
  }

  /** The pagination bar is shown only when there is more than one page, that is when more
      than twelve products remain. */
  lemma PaginationShownIffMoreThanOnePage(n: nat)
    ensures TotalPages(n) > 1 <==> n > ProductsPerPage
  {
  }

  // ---------------------------------------------------------------------------
  // Filters of the pages screen

  /** The category filter: an empty selection keeps everything. */
  predicate InCategory(p: Product, selectedCategory: string) {
    selectedCategory == "" || p.category == selectedCategory
  }

  /** The price filter, on the discounted price, both bounds inclusive. */
  predicate InPriceRange(p: Product, min: real, max: real) {
    var discountedPrice := DiscountedPrice(p.price, p.discountPercentage);
    min <= discountedPrice <= max
  }
}
