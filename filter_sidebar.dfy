/** The filter sidebar's handlers: each builds the action it dispatches from
    the current filters and the input, and `dispatch` hands that action to the
    products slice. Also the upper bound of the price inputs. The numeric
    inputs arrive as the integers `parseInt` makes of their text. */
module FilterSidebar {
  import opened Interfaces
  import opened ProductsFilter
  import opened ProductsSlice

  /** The two actions the sidebar dispatches. */
  datatype Action =
    | SetFiltersAction(partial: PartialFilter)
    | ClearFiltersAction

  /** `Math.max(...products.map(p => p.price), 1000)`. */
  function MaxPrice(products: seq<Product>): (m: real)
    ensures m >= 1000.0
    ensures forall p :: p in products ==> p.price <= m
    ensures m == 1000.0 || exists p :: p in products && p.price == m
  {
    if products == [] then 1000.0
    else
      var rest := MaxPrice(products[1..]);
      assert forall p :: p in products ==> p == products[0] || p in products[1..];
      if products[0].price > rest then products[0].price else rest
  }

  /** `handleCategoryChange`: a click on the selected category deselects it
      (sends ""); a click on any other category selects it. */
  function HandleCategoryChange(filters: FilterState, category: string): (a: Action)
    ensures a.SetFiltersAction? && a.partial.category.Some?
    ensures a.partial.priceRange.None? && a.partial.sortBy.None? && a.partial.searchQuery.None?
    ensures a.partial.category.value == "" <==> category == filters.category || category == ""
    ensures a.partial.category.value != "" ==> a.partial.category.value == category
  {
    SetFiltersAction(PartialFilter(Some(if category == filters.category then "" else category), None, None, None))
  }

  /** `handlePriceRangeChange`, wired to the max input and the slider: the new
      upper bound with the current lower bound. */
  function HandlePriceRangeChange(filters: FilterState, value: int): (a: Action)
    ensures a.SetFiltersAction? && a.partial.priceRange.Some?
    ensures a.partial.category.None? && a.partial.sortBy.None? && a.partial.searchQuery.None?
    ensures a.partial.priceRange.value.0 == filters.priceRange.0
    ensures a.partial.priceRange.value.1 == value as real
  {
    SetFiltersAction(PartialFilter(None, Some((filters.priceRange.0, value as real)), None, None))
  }

  /** `handleMinPriceChange`, wired to the min input: the new lower bound with
      the current upper bound. */
  function HandleMinPriceChange(filters: FilterState, value: int): (a: Action)
    ensures a.SetFiltersAction? && a.partial.priceRange.Some?
    ensures a.partial.category.None? && a.partial.sortBy.None? && a.partial.searchQuery.None?
    ensures a.partial.priceRange.value.0 == value as real
    ensures a.partial.priceRange.value.1 == filters.priceRange.1
  {
    SetFiltersAction(PartialFilter(None, Some((value as real, filters.priceRange.1)), None, None))
  }

  /** `handleSortChange`: the option chosen in the sort select. */
  function HandleSortChange(sortBy: SortBy): (a: Action)
    ensures a.SetFiltersAction? && a.partial.sortBy == Some(sortBy)
    ensures a.partial.category.None? && a.partial.priceRange.None? && a.partial.searchQuery.None?
  {
    SetFiltersAction(PartialFilter(None, None, Some(sortBy), None))
  }

  /** `handleClearFilters`. */
  function HandleClearFilters(): (a: Action)
    ensures a.ClearFiltersAction?
  {
    ClearFiltersAction
  }

  /** `dispatch`: the slice's reducer for the action runs on the store. */
  method Dispatch(store: ProductsState, action: Action)
    requires store.Valid()
    modifies store
    ensures store.Valid()
    ensures action.SetFiltersAction? ==>
      store.filters == Merge(old(store.filters), action.partial) && store.ViewCurrent()
    ensures action.ClearFiltersAction? ==>
      store.filters == INITIAL_FILTERS && store.filteredProducts == store.products
    ensures store.currentPage == 1
    ensures store.products == old(store.products) && store.categories == old(store.categories)
    ensures store.loading == old(store.loading) && store.error == old(store.error)
    ensures store.productsPerPage == old(store.productsPerPage)
  {
    match action
    case SetFiltersAction(partial) => store.SetFilters(partial);
    case ClearFiltersAction => store.ClearFilters();
  }

  /** The filters after the slice merges a handler's update. */
  function After(filters: FilterState, a: Action): FilterState
    requires a.SetFiltersAction?
  {
    Merge(filters, a.partial)
  }

  /** A category click changes only the category; clicking the same category
      twice in a row gets back to where it started exactly when that category
      was already selected or none was. */
  lemma CategoryClickTwice(filters: FilterState, category: string)
    ensures var once := After(filters, HandleCategoryChange(filters, category));
      && once.priceRange == filters.priceRange && once.sortBy == filters.sortBy
      && once.searchQuery == filters.searchQuery
      && (After(once, HandleCategoryChange(once, category)) == filters
          <==> filters.category == category || filters.category == "")
  {
    var once := After(filters, HandleCategoryChange(filters, category));
    var twice := After(once, HandleCategoryChange(once, category));
    if twice == filters {
      assert twice.category == filters.category;
    }
  }

  /** After selecting a category other than the current one, every product in
      the recomputed view belongs to it. */
  lemma SelectedCategoryView(products: seq<Product>, filters: FilterState, category: string)
    requires category != "" && category != filters.category
    ensures var view := ApplyFilters(products, After(filters, HandleCategoryChange(filters, category)));
      forall p :: p in view ==> p.category == category
  {
    ApplyFiltersContents(products, After(filters, HandleCategoryChange(filters, category)));
  }

  /** Each price handler moves one bound and keeps the other, and keeps every
      other filter. */
  lemma PriceHandlersKeepOtherBound(filters: FilterState, value: int)
    ensures var hi := After(filters, HandlePriceRangeChange(filters, value));
      hi == filters.(priceRange := (filters.priceRange.0, value as real))
    ensures var lo := After(filters, HandleMinPriceChange(filters, value));
      lo == filters.(priceRange := (value as real, filters.priceRange.1))
  {
  }

  /** The sort handler changes only the sort key. */
  lemma SortChangeKeepsFilters(filters: FilterState, sortBy: SortBy)
    ensures After(filters, HandleSortChange(sortBy)) == filters.(sortBy := sortBy)
  {
  }

  /** Neither price handler clamps: a maximum below the current minimum, or a
      minimum above the current maximum, is stored as given and the view it
      gives is empty whatever the products. */
  lemma UnclampedRangeEmptiesView(products: seq<Product>, filters: FilterState, value: int)
    ensures (value as real) < filters.priceRange.0 ==>
      ApplyFilters(products, After(filters, HandlePriceRangeChange(filters, value))) == []
    ensures (value as real) > filters.priceRange.1 ==>
      ApplyFilters(products, After(filters, HandleMinPriceChange(filters, value))) == []
  {
    if (value as real) < filters.priceRange.0 {
      InvertedRangeEmpty(products, After(filters, HandlePriceRangeChange(filters, value)));
    }
    if (value as real) > filters.priceRange.1 {
      InvertedRangeEmpty(products, After(filters, HandleMinPriceChange(filters, value)));
    }
  }

  /** With the maximum at `maxPrice`, the price test drops no product for
      being too expensive. */
  lemma MaxPriceKeepsAll(products: seq<Product>, filters: FilterState)
    requires filters.priceRange.1 == MaxPrice(products)
    ensures forall p :: p in products && p.price >= filters.priceRange.0 ==> InPriceRange(filters.priceRange, p)
  {
  }
}
