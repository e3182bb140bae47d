/** `applyFilters`: the category, price and search passes over a copy of the
    product list, followed by the stable sort on `sortBy`. The input list is a
    value here, so "it is never changed" holds by construction. */
module ProductsFilter {
  import opened Interfaces
  import opened JsText
  import opened ProductsSort

  /** `Array.prototype.filter`: the elements that `keep` accepts, in order. */
  function Filter<T>(s: seq<T>, keep: T -> bool): seq<T> {
    if s == [] then []
    else (if keep(s[0]) then [s[0]] else []) + Filter(s[1..], keep)
  }

  lemma {:induction false} FilterAppend<T>(a: seq<T>, b: seq<T>, keep: T -> bool)
    ensures Filter(a + b, keep) == Filter(a, keep) + Filter(b, keep)
  {
    if a != [] {
      var head := if keep(a[0]) then [a[0]] else [];
      assert (a + b)[0] == a[0] && (a + b)[1..] == a[1..] + b;
      calc {
        Filter(a + b, keep);
        head + Filter(a[1..] + b, keep);
        { FilterAppend(a[1..], b, keep); }
        head + (Filter(a[1..], keep) + Filter(b, keep));
        (head + Filter(a[1..], keep)) + Filter(b, keep);
        Filter(a, keep) + Filter(b, keep);
      }
    } else {
      assert a + b == b;
    }
  }

  /** The category test: an empty category accepts every product. */
  predicate MatchesCategory(category: string, p: Product) {
    category == "" || p.category == category
  }

  /** The inclusive price range test; nothing orders the two bounds. */
  predicate InPriceRange(range: (real, real), p: Product) {
    range.0 <= p.price && p.price <= range.1
  }

  /** The search test: an empty query accepts every product; otherwise the
      lower-cased title or description must include the lower-cased query. */
  predicate MatchesSearch(query: string, p: Product) {
    query == ""
    || Includes(ToLowerCase(p.title), ToLowerCase(query))
    || Includes(ToLowerCase(p.description), ToLowerCase(query))
  }

  /** A product survives all three passes. */
  predicate Passes(filters: FilterState, p: Product) {
    MatchesCategory(filters.category, p)
    && InPriceRange(filters.priceRange, p)
    && MatchesSearch(filters.searchQuery, p)
  }

  /** The category pass runs only for a non-empty category. */
  function ByCategory(s: seq<Product>, category: string): seq<Product> {
    if category != "" then Filter(s, (p: Product) => p.category == category) else s
  }

  function ByPrice(s: seq<Product>, range: (real, real)): seq<Product> {
    Filter(s, (p: Product) => InPriceRange(range, p))
  }

  /** The search pass runs only for a non-empty query, lower-cased once. */
  function BySearch(s: seq<Product>, searchQuery: string): seq<Product> {
    if searchQuery != "" then
      var query := ToLowerCase(searchQuery);
      Filter(s, (p: Product) =>
        Includes(ToLowerCase(p.title), query) || Includes(ToLowerCase(p.description), query))
    else s
  }

  /** The three passes in the order the source runs them. */
  function Filtered(products: seq<Product>, filters: FilterState): seq<Product> {
    BySearch(ByPrice(ByCategory(products, filters.category), filters.priceRange), filters.searchQuery)
  }

  /** `applyFilters(products, filters)`. */
  function ApplyFilters(products: seq<Product>, filters: FilterState): seq<Product> {
    StableSort(filters.sortBy, Filtered(products, filters))
  }

  /** Reference definition of the filter stage: the products that pass, in
      source order. */
  function KeepPassing(products: seq<Product>, filters: FilterState): seq<Product> {
    if products == [] then []
    else (if Passes(filters, products[0]) then [products[0]] else []) + KeepPassing(products[1..], filters)
  }

  lemma FilteredAppend(a: seq<Product>, b: seq<Product>, filters: FilterState)
    ensures Filtered(a + b, filters) == Filtered(a, filters) + Filtered(b, filters)
  {
    var c := filters.category;
    if c != "" {
      FilterAppend(a, b, (p: Product) => p.category == c);
    }
    FilterAppend(ByCategory(a, c), ByCategory(b, c), (p: Product) => InPriceRange(filters.priceRange, p));
    if filters.searchQuery != "" {
      var query := ToLowerCase(filters.searchQuery);
      FilterAppend(ByPrice(ByCategory(a, c), filters.priceRange), ByPrice(ByCategory(b, c), filters.priceRange),
        (p: Product) => Includes(ToLowerCase(p.title), query) || Includes(ToLowerCase(p.description), query));
    }
  }

  lemma FilterSingleton<T>(x: T, keep: T -> bool)
    ensures Filter([x], keep) == if keep(x) then [x] else []
  {
    assert [x][1..] == [];
  }

  lemma FilteredSingleton(x: Product, filters: FilterState)
    ensures Filtered([x], filters) == if Passes(filters, x) then [x] else []
  {
    var c, q := filters.category, filters.searchQuery;
    FilterSingleton(x, (p: Product) => p.category == c);
    FilterSingleton(x, (p: Product) => InPriceRange(filters.priceRange, p));
    var query := ToLowerCase(q);
    FilterSingleton(x, (p: Product) =>
      Includes(ToLowerCase(p.title), query) || Includes(ToLowerCase(p.description), query));
    assert Filter([], (p: Product) =>
      Includes(ToLowerCase(p.title), query) || Includes(ToLowerCase(p.description), query)) == [];
  }

  /** The three passes together keep exactly the products that pass every
      test, in source order. */
  lemma {:induction false} FilteredIsKeepPassing(products: seq<Product>, filters: FilterState)
    ensures Filtered(products, filters) == KeepPassing(products, filters)
  {
    if products != [] {
      var x, rest := products[0], products[1..];
      assert products == [x] + rest;
      FilteredAppend([x], rest, filters);
      FilteredSingleton(x, filters);
      FilteredIsKeepPassing(rest, filters);
    }
  }

  lemma {:induction false} KeepPassingMembers(products: seq<Product>, filters: FilterState)
    ensures forall x :: x in KeepPassing(products, filters) <==> x in products && Passes(filters, x)
    ensures multiset(KeepPassing(products, filters)) <= multiset(products)
  {
    if products != [] {
      KeepPassingMembers(products[1..], filters);
      assert products == [products[0]] + products[1..];
    }
  }

  /** `applyFilters` returns a permutation of the products that pass all three
      tests. */
  lemma ApplyFiltersPermutation(products: seq<Product>, filters: FilterState)
    ensures multiset(ApplyFilters(products, filters)) == multiset(KeepPassing(products, filters))
  {
    FilteredIsKeepPassing(products, filters);
    StableSortPermutation(filters.sortBy, KeepPassing(products, filters));
  }

  /** A product is in the result of `applyFilters` exactly when it is in the
      input and passes the three tests. */
  lemma ApplyFiltersContents(products: seq<Product>, filters: FilterState)
    ensures forall x :: x in ApplyFilters(products, filters) <==> x in products && Passes(filters, x)
  {
    ApplyFiltersPermutation(products, filters);
    KeepPassingMembers(products, filters);
    var r := ApplyFilters(products, filters);
    forall x ensures x in r <==> x in KeepPassing(products, filters) {
      assert x in r <==> x in multiset(r);
    }
  }

  /** The result only holds products of the input. */
  lemma ApplyFiltersWithin(products: seq<Product>, filters: FilterState)
    ensures multiset(ApplyFilters(products, filters)) <= multiset(products)
  {
    ApplyFiltersPermutation(products, filters);
    KeepPassingMembers(products, filters);
  }

  /** The result is sorted by the comparator of `sortBy`, and products with
      equal keys keep their order from the filter stage. */
  lemma ApplyFiltersOrder(products: seq<Product>, filters: FilterState)
    ensures Sorted(filters.sortBy, ApplyFilters(products, filters))
    ensures Stable(filters.sortBy, KeepPassing(products, filters), ApplyFilters(products, filters))
  {
    FilteredIsKeepPassing(products, filters);
    StableSortCorrect(filters.sortBy, KeepPassing(products, filters));
  }

  /** Any sorted, stable permutation of the passing products, which is what a
      conforming `Array.prototype.sort` produces, is the result. */
  lemma ApplyFiltersDetermined(products: seq<Product>, filters: FilterState, r: seq<Product>)
    requires multiset(r) == multiset(KeepPassing(products, filters))
    requires Sorted(filters.sortBy, r)
    requires Stable(filters.sortBy, KeepPassing(products, filters), r)
    ensures r == ApplyFilters(products, filters)
  {
    FilteredIsKeepPassing(products, filters);
    StableSortIsUnique(filters.sortBy, KeepPassing(products, filters), r);
  }

  /** The order of the result by each sort key, stated on the product fields. */
  lemma ApplyFiltersSortKey(products: seq<Product>, filters: FilterState)
    ensures var r := ApplyFilters(products, filters);
      && (filters.sortBy == PriceAsc ==> forall i, j :: 0 <= i < j < |r| ==> r[i].price <= r[j].price)
      && (filters.sortBy == PriceDesc ==> forall i, j :: 0 <= i < j < |r| ==> r[i].price >= r[j].price)
      && (filters.sortBy == RatingDesc ==> forall i, j :: 0 <= i < j < |r| ==> r[i].rating.rate >= r[j].rating.rate)
      && (filters.sortBy == NameAsc ==> forall i, j :: 0 <= i < j < |r| ==> LocaleCompare(r[i].title, r[j].title) <= 0)
  {
    ApplyFiltersOrder(products, filters);
  }

  /** A price range whose lower bound exceeds its upper bound empties the
      result, whatever the input. */
  lemma InvertedRangeEmpty(products: seq<Product>, filters: FilterState)
    requires filters.priceRange.0 > filters.priceRange.1
    ensures ApplyFilters(products, filters) == []
  {
    InvertedRangeKeepsNothing(products, filters);
    FilteredIsKeepPassing(products, filters);
  }

  lemma {:induction false} InvertedRangeKeepsNothing(products: seq<Product>, filters: FilterState)
    requires filters.priceRange.0 > filters.priceRange.1
    ensures KeepPassing(products, filters) == []
  {
    if products != [] {
      InvertedRangeKeepsNothing(products[1..], filters);
    }
  }

  /** The search test spelled out: a non-empty query keeps a product exactly
      when the lower-cased query occurs at some index of its lower-cased title
      or of its lower-cased description. */
  lemma SearchSemantics(query: string, p: Product)
    ensures MatchesSearch(query, p) <==>
      (query == ""
       || (exists i :: OccursAt(ToLowerCase(p.title), ToLowerCase(query), i))
       || (exists i :: OccursAt(ToLowerCase(p.description), ToLowerCase(query), i)))
  {
    var title, description, q := ToLowerCase(p.title), ToLowerCase(p.description), ToLowerCase(query);
    IncludesAt(title, q);
    IncludesAt(description, q);
    if Includes(title, q) {
      var i :| OccursAt(title, q, i);
      assert OccursAt(ToLowerCase(p.title), ToLowerCase(query), i);
    }
    if Includes(description, q) {
      var i :| OccursAt(description, q, i);
      assert OccursAt(ToLowerCase(p.description), ToLowerCase(query), i);
    }
  }
}
