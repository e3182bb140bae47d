/** The products slice of the store: its state record, its initial value, the
    reducers `setFilters`, `setCurrentPage` and `clearFilters`, and the cases
    it handles for the product and category fetches. Each reducer assigns
    fields of the state in place, so the state is a class and each reducer a
    method. A fetch reaches the slice only as the action it dispatches when it
    settles; those actions are the `FetchEvent` values below. */
module ProductsSlice {
  import opened Interfaces
  import opened ProductsSort
  import opened ProductsFilter

  /** The initial filters, which `clearFilters` restores. */
  const INITIAL_FILTERS := FilterState("", (0.0, 1000.0), NameAsc, "")

  const PRODUCTS_PER_PAGE := 12

  /** The message recorded when a rejected product fetch carries none. */
  const FETCH_PRODUCTS_FAILED := "Failed to fetch products"

  /** The actions the two fetch thunks dispatch. `ProductsRejected` carries the
      error's message, absent when the error has none. The category fetch's
      pending and rejected actions reach the slice too, which ignores them. */
  datatype FetchEvent =
    | ProductsPending
    | ProductsFulfilled(payload: seq<Product>)
    | ProductsRejected(message: Option<string>)
    | CategoriesPending
    | CategoriesFulfilled(list: seq<string>)
    | CategoriesRejected(message: Option<string>)

  /** `{ ...filters, ...partial }`: a field given in `partial` replaces the
      one in `filters`; an absent field keeps its value. */
  function Merge(filters: FilterState, partial: PartialFilter): (r: FilterState)
    ensures partial == NO_CHANGE ==> r == filters
  {
    FilterState(
      if partial.category.Some? then partial.category.value else filters.category,
      if partial.priceRange.Some? then partial.priceRange.value else filters.priceRange,
      if partial.sortBy.Some? then partial.sortBy.value else filters.sortBy,
      if partial.searchQuery.Some? then partial.searchQuery.value else filters.searchQuery)
  }

  /** `{ ...first, ...second }` on two partial updates. */
  function Spread(first: PartialFilter, second: PartialFilter): PartialFilter {
    PartialFilter(
      if second.category.Some? then second.category else first.category,
      if second.priceRange.Some? then second.priceRange else first.priceRange,
      if second.sortBy.Some? then second.sortBy else first.sortBy,
      if second.searchQuery.Some? then second.searchQuery else first.searchQuery)
  }

  /** Merging two updates one after the other is merging their spread, and
      merging the same update twice is merging it once. */
  lemma MergeSequence(filters: FilterState, first: PartialFilter, second: PartialFilter)
    ensures Merge(Merge(filters, first), second) == Merge(filters, Spread(first, second))
    ensures Merge(Merge(filters, first), first) == Merge(filters, first)
  {
  }

  /** A field is replaced exactly when the update gives it; every other field
      keeps its value. */
  lemma MergeFields(filters: FilterState, partial: PartialFilter)
    ensures var r := Merge(filters, partial);
      && (partial.category.None? ==> r.category == filters.category)
      && (partial.category.Some? ==> r.category == partial.category.value)
      && (partial.priceRange.None? ==> r.priceRange == filters.priceRange)
      && (partial.priceRange.Some? ==> r.priceRange == partial.priceRange.value)
      && (partial.sortBy.None? ==> r.sortBy == filters.sortBy)
      && (partial.sortBy.Some? ==> r.sortBy == partial.sortBy.value)
      && (partial.searchQuery.None? ==> r.searchQuery == filters.searchQuery)
      && (partial.searchQuery.Some? ==> r.searchQuery == partial.searchQuery.value)
  {
  }

  /** The view `clearFilters` leaves behind is not what recomputing it under
      the restored filters would give: a loaded product priced above 1000 stays
      in the copied list but fails the restored price range. */
  lemma ClearedViewNotRecomputed(products: seq<Product>, expensive: Product)
    requires expensive in products && expensive.price > 1000.0
    ensures expensive !in ApplyFilters(products, INITIAL_FILTERS)
    ensures ApplyFilters(products, INITIAL_FILTERS) != products
  {
    ApplyFiltersContents(products, INITIAL_FILTERS);
  }

  class ProductsState {
    var products: seq<Product>
    var filteredProducts: seq<Product>
    var categories: seq<string>
    var loading: bool
    var error: Option<string>
    var filters: FilterState
    var currentPage: int
    var productsPerPage: int

    /** The view holds only loaded products (never more copies of one than
        were loaded), and the page size is the fixed 12. */
    ghost predicate Valid()
      reads this
    {
      multiset(filteredProducts) <= multiset(products) && productsPerPage == PRODUCTS_PER_PAGE
    }

    /** The view is the filtered, sorted catalog under the current filters. */
    ghost predicate ViewCurrent()
      reads this
    {
      filteredProducts == ApplyFilters(products, filters)
    }

    /** `initialState`. */
    constructor ()
      ensures Valid() && ViewCurrent()
      ensures products == [] && filteredProducts == [] && categories == []
      ensures !loading && error == None
      ensures filters == INITIAL_FILTERS && currentPage == 1 && productsPerPage == 12
    {
      products := [];
      filteredProducts := [];
      categories := [];
      loading := false;
      error := None;
      filters := INITIAL_FILTERS;
      currentPage := 1;
      productsPerPage := PRODUCTS_PER_PAGE;
    }

    /** `setFilters`: merge the update, recompute the view, go to page 1. */
    method SetFilters(partial: PartialFilter)
      requires Valid()
      modifies this
      ensures Valid() && ViewCurrent()
      ensures filters == Merge(old(filters), partial)
      ensures currentPage == 1
      ensures products == old(products) && categories == old(categories)
      ensures loading == old(loading) && error == old(error)
      ensures productsPerPage == old(productsPerPage)
    {
      filters := Merge(filters, partial);
      ApplyFiltersWithin(products, filters);
      filteredProducts := ApplyFilters(products, filters);
      currentPage := 1;
    }

    /** `setCurrentPage`: store the page as given, without a bounds check. */
    method SetCurrentPage(page: int)
      requires Valid()
      modifies this
      ensures Valid()
      ensures currentPage == page
      ensures products == old(products) && filteredProducts == old(filteredProducts)
      ensures categories == old(categories) && filters == old(filters)
      ensures loading == old(loading) && error == old(error)
      ensures productsPerPage == old(productsPerPage)
    {
      currentPage := page;
    }

    /** `clearFilters`: restore the initial filters and go to page 1; the view
        becomes the loaded list itself, in source order, not a recomputation. */
    method ClearFilters()
      requires Valid()
      modifies this
      ensures Valid()
      ensures filters == INITIAL_FILTERS
      ensures filteredProducts == products
      ensures currentPage == 1
      ensures products == old(products) && categories == old(categories)
      ensures loading == old(loading) && error == old(error)
      ensures productsPerPage == old(productsPerPage)
    {
      filters := INITIAL_FILTERS;
      filteredProducts := products;
      currentPage := 1;
    }

    /** `fetchProducts.pending`: mark loading and clear the error. */
    method OnProductsPending()
      requires Valid()
      modifies this
      ensures Valid()
      ensures loading && error == None
      ensures products == old(products) && filteredProducts == old(filteredProducts)
      ensures categories == old(categories) && filters == old(filters)
      ensures currentPage == old(currentPage) && productsPerPage == old(productsPerPage)
    {
      loading, error := true, None;
    }

    /** `fetchProducts.fulfilled`: replace the list and recompute the view under
        the current filters; the page is kept. */
    method OnProductsFulfilled(payload: seq<Product>)
      requires Valid()
      modifies this
      ensures Valid() && ViewCurrent()
      ensures !loading && products == payload
      ensures error == old(error) && categories == old(categories) && filters == old(filters)
      ensures currentPage == old(currentPage) && productsPerPage == old(productsPerPage)
    {
      var current := filters;
      var view := ApplyFilters(payload, current);
      ApplyFiltersWithin(payload, current);
      loading, products, filteredProducts := false, payload, view;
      assert products == payload && filters == current;
    }

    /** `fetchProducts.rejected`: record the error's message, or the default
        one when the message is absent or empty; the list and view are kept. */
    method OnProductsRejected(message: Option<string>)
      requires Valid()
      modifies this
      ensures Valid()
      ensures !loading
      ensures error == Some(if message.Some? && message.value != "" then message.value else FETCH_PRODUCTS_FAILED)
      ensures products == old(products) && filteredProducts == old(filteredProducts)
      ensures categories == old(categories) && filters == old(filters)
      ensures currentPage == old(currentPage) && productsPerPage == old(productsPerPage)
    {
      loading := false;
      error := Some(if message.Some? && message.value != "" then message.value else FETCH_PRODUCTS_FAILED);
    }

    /** `fetchCategories.fulfilled`: replace the category list only. */
    method OnCategoriesFulfilled(list: seq<string>)
      requires Valid()
      modifies this
      ensures Valid()
      ensures categories == list
      ensures products == old(products) && filteredProducts == old(filteredProducts)
      ensures loading == old(loading) && error == old(error) && filters == old(filters)
      ensures currentPage == old(currentPage) && productsPerPage == old(productsPerPage)
    {
      categories := list;
    }

    /** The slice's reaction to a fetch action: the four cases above, and no
        change at all for the category fetch's pending and rejected actions. */
    method Handle(event: FetchEvent)
      requires Valid()
      modifies this
      ensures Valid()
      ensures filters == old(filters) && currentPage == old(currentPage)
      ensures productsPerPage == old(productsPerPage)
      ensures match event
        case ProductsPending =>
          && loading && error == None
          && products == old(products) && filteredProducts == old(filteredProducts)
          && categories == old(categories)
        case ProductsFulfilled(payload) =>
          && !loading && error == old(error) && categories == old(categories)
          && products == payload && ViewCurrent()
        case ProductsRejected(message) =>
          && !loading
          && error == Some(if message.Some? && message.value != "" then message.value else FETCH_PRODUCTS_FAILED)
          && products == old(products) && filteredProducts == old(filteredProducts)
          && categories == old(categories)
        case CategoriesFulfilled(list) =>
          && categories == list && loading == old(loading) && error == old(error)
          && products == old(products) && filteredProducts == old(filteredProducts)
        case _ =>
          && categories == old(categories) && loading == old(loading) && error == old(error)
          && products == old(products) && filteredProducts == old(filteredProducts)
    {
      match event
      case ProductsPending => OnProductsPending();
      case ProductsFulfilled(payload) => OnProductsFulfilled(payload);
      case ProductsRejected(message) => OnProductsRejected(message);
      case CategoriesFulfilled(list) => OnCategoriesFulfilled(list);
      case CategoriesPending =>
      case CategoriesRejected(_) =>
    }
  }
}
