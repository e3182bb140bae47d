# Product catalog store, modelled in Dafny

This project models the catalog core of a small React/Redux storefront:

- the products slice of the store (`src/store/productsSlice.ts`), with
  - the filter-and-sort pipeline `applyFilters`;
  - the reducers `setFilters`, `setCurrentPage` and `clearFilters`;
  - the slice's reactions to the product and category fetches;
- the pagination of the product grid (`src/components/ProductGrid.tsx`);
- the filter sidebar's handlers and its `maxPrice` bound (`src/components/FilterSidebar.tsx`);
- the product card's `truncateTitle` (`src/components/ProductCard.tsx`).

The model is split by concern:

- **State.** The slice's state record is the class `ProductsSlice.ProductsState`. Each reducer is a method that assigns its fields and states the whole new state.
- **Pure parts.** `applyFilters`, the grid arithmetic, the sidebar's payload builders and `truncateTitle` are functions.
- **The sort.** It is a stable insertion sort on the source's comparator. `ProductsSort.StableSortIsUnique` proves that any sorted, stable permutation is that sort's output, so the model holds for whichever stable algorithm an engine uses.

Files:

- `interfaces.dfy`: `Product`, `FilterState`, `SortBy` and the partial update `PartialFilter`.
- `js_text.dfy`: `toLowerCase`, `includes` and `localeCompare`, with their laws.
- `products_sort.dfy`: the comparator, the stable sort, and its sortedness, stability and uniqueness.
- `products_filter.dfy`: `applyFilters`, a first-order reference definition `KeepPassing`, and the contents, order, search and empty-range properties.
- `products_slice.dfy`: the merge of partial updates, the initial state, the reducers and the fetch cases.
- `product_grid.dfy`: the page window, the slice, the "Showing X-Y of N" label, the loading/empty/grid choice, and the page-cover lemmas.
- `filter_sidebar.dfy`: `maxPrice`, the five handlers, `dispatch`, and how the handlers compose with `setFilters`.
- `product_card.dfy`: `truncateTitle`.

The model follows the code where the written description of the project differs from it. Like the code, `clearFilters` copies the loaded `products` into `filteredProducts` and does not run `applyFilters` again. After a clear, the view is in load order and can hold products priced above 1000, outside the restored `[0, 1000]` range. `ProductsSlice.ClearedViewNotRecomputed` shows that this view differs from a recomputed one.

## Model

| member | source | states |
|---|---|---|
| JsText.ToLowerCase | src/store/productsSlice.ts:65-69 | lower-casing keeps the length, maps each character on its own, and leaves no upper-case ASCII letter |
| JsText.IncludesAt | src/store/productsSlice.ts:68-69 | `includes` holds exactly when the query occurs at some index of the text |
| JsText.LocaleCompareAntisymmetric | src/store/productsSlice.ts:83 | swapping the two titles negates the comparison |
| JsText.LocaleCompareZero | src/store/productsSlice.ts:83 | two titles compare as 0 exactly when they are equal |
| JsText.LocaleCompareTransitive | src/store/productsSlice.ts:83 | "sorts no later than" on titles is transitive |
| ProductsSort.CompareZero | src/store/productsSlice.ts:74-87 | for every `sortBy`, the comparator returns 0 exactly on products with the same key (price, rate or title) |
| ProductsSort.LeTotal | src/store/productsSlice.ts:74-87 | the comparator orders every pair one way or the other, and orders equal keys both ways |
| ProductsSort.LeTransitive | src/store/productsSlice.ts:74-87 | the comparator's order is transitive |
| ProductsSort.InsertPermutation | src/store/productsSlice.ts:74 | inserting into a list adds exactly that one element |
| ProductsSort.StableSortPermutation | src/store/productsSlice.ts:74 | the sort returns a permutation of its input |
| ProductsSort.StableSortSorted | src/store/productsSlice.ts:74-87 | the sort's output is ordered by the comparator |
| ProductsSort.StableSortCorrect | src/store/productsSlice.ts:74-87 | the sort's output is a permutation, is ordered, and keeps products with equal keys in their input order |
| ProductsSort.StableSortIsUnique | src/store/productsSlice.ts:74 | any sorted, stable permutation of the input equals the sort's output |
| ProductsFilter.FilterAppend | src/store/productsSlice.ts:51-53 | `filter` over a concatenation is the concatenation of the two filtered parts |
| ProductsFilter.FilteredIsKeepPassing | src/store/productsSlice.ts:49-71 | the three filter passes together keep, in input order, exactly the products that pass all three tests |
| ProductsFilter.KeepPassingMembers | src/store/productsSlice.ts:49-71 | the kept products are the input products that pass, and none is kept more often than it occurs in the input |
| ProductsFilter.ApplyFiltersPermutation | src/store/productsSlice.ts:46-90 | `applyFilters` returns a permutation of `KeepPassing`, the passing products in input order |
| ProductsFilter.ApplyFiltersContents | src/store/productsSlice.ts:46-90 | a product is in the result exactly when it is in the input and passes the category, inclusive price range and search tests |
| ProductsFilter.ApplyFiltersWithin | src/store/productsSlice.ts:46-90 | the result holds only input products, never more copies of one than the input has |
| ProductsFilter.ApplyFiltersOrder | src/store/productsSlice.ts:73-87 | the result is ordered by the `sortBy` comparator and is stable with respect to the filter stage's order |
| ProductsFilter.ApplyFiltersDetermined | src/store/productsSlice.ts:73-89 | any sorted, stable permutation of the passing products is the result |
| ProductsFilter.ApplyFiltersSortKey | src/store/productsSlice.ts:76-83 | price-asc gives non-decreasing prices, price-desc and rating-desc give non-increasing prices and rates, name-asc gives titles in comparator order |
| ProductsFilter.InvertedRangeEmpty | src/store/productsSlice.ts:57-61 | a price range with min > max gives an empty result for any input |
| ProductsFilter.InvertedRangeKeepsNothing | src/store/productsSlice.ts:57-61 | with min > max, no product passes the filter stage |
| ProductsFilter.SearchSemantics | src/store/productsSlice.ts:63-71 | a product passes the search exactly when the query is empty, or the lower-cased query occurs in the lower-cased title or description |
| ProductsSlice.Merge | src/store/productsSlice.ts:97 | merging the empty partial update leaves the filters as they are |
| ProductsSlice.MergeFields | src/store/productsSlice.ts:97 | a field given in the update replaces the old value; every absent field keeps its value |
| ProductsSlice.MergeSequence | src/store/productsSlice.ts:97 | two merges in a row equal one merge of the spread updates, and merging the same update twice equals merging it once |
| ProductsSlice.ClearedViewNotRecomputed | src/store/productsSlice.ts:104-108 | after loading a product priced above 1000, recomputing under the initial filters would drop it, so the raw copy `clearFilters` keeps differs from a recomputed view |
| ProductsSlice.ProductsState.constructor | src/store/productsSlice.ts:16-30 | the initial state: empty lists, not loading, no error, the initial filters, page 1, 12 products per page |
| ProductsSlice.ProductsState.SetFilters | src/store/productsSlice.ts:96-100 | the filters become the merge of the old filters and the update, the view is `applyFilters` of the loaded products under them, the page is 1, and nothing else changes |
| ProductsSlice.ProductsState.SetCurrentPage | src/store/productsSlice.ts:101-103 | the page is stored as given, with no bounds check, and nothing else changes |
| ProductsSlice.ProductsState.ClearFilters | src/store/productsSlice.ts:104-108 | the filters become the initial ones, the view becomes the loaded list itself, the page is 1, and nothing else changes |
| ProductsSlice.ProductsState.OnProductsPending | src/store/productsSlice.ts:112-115 | loading is set and the error cleared; nothing else changes |
| ProductsSlice.ProductsState.OnProductsFulfilled | src/store/productsSlice.ts:116-120 | loading is cleared, the list is replaced by the payload, the view is recomputed under the current filters, and the page and error are kept |
| ProductsSlice.ProductsState.OnProductsRejected | src/store/productsSlice.ts:121-124 | loading is cleared; the error is the message, or "Failed to fetch products" when the message is absent or empty; the list and view are kept |
| ProductsSlice.ProductsState.OnCategoriesFulfilled | src/store/productsSlice.ts:125-127 | only the category list changes |
| ProductsSlice.ProductsState.Handle | src/store/productsSlice.ts:110-128 | each fetch action has the effect above; the category fetch's pending and rejected actions change nothing; filters, page and page size are never touched |
| ProductGrid.Slice | src/components/ProductGrid.tsx:31 | `slice` with bounds cut down to the length: its length and its elements, taken from the start index on |
| ProductGrid.CurrentProducts | src/components/ProductGrid.tsx:29-31 | for page >= 1, the page holds at most `productsPerPage` products; past the end it is empty, otherwise it is the view from `startIndex` to `min(endIndex, N)` |
| ProductGrid.ShowingLabel | src/components/ProductGrid.tsx:38 | the label's lower bound is at least 1, its upper bound is at most N, and N is the view's length |
| ProductGrid.Render | src/components/ProductGrid.tsx:12-47 | the spinner shows exactly while loading, the empty message exactly when not loading and the view is empty, and a grid shows at most a page of the view's products |
| ProductGrid.PagesThroughPrefix | src/components/ProductGrid.tsx:29-31 | pages 1..n together are exactly the first `min(n * productsPerPage, N)` products of the view |
| ProductGrid.AllPagesRebuildView | src/components/ProductGrid.tsx:29-31 | pages 1..ceil(N / productsPerPage) together give back the whole view |
| ProductGrid.PagesAdjacent | src/components/ProductGrid.tsx:29-31 | page n ends where page n+1 starts, and the two together are one contiguous window of the view |
| ProductGrid.PageNonEmpty | src/components/ProductGrid.tsx:29-31 | a page is non-empty exactly when its number is at most ceil(N / productsPerPage) |
| ProductGrid.LabelCountsItems | src/components/ProductGrid.tsx:29-38 | the label counts exactly the products shown; past the last page its lower bound exceeds its upper bound |
| FilterSidebar.MaxPrice | src/components/FilterSidebar.tsx:20 | `maxPrice` is at least 1000, at least every loaded price, and either 1000 or some product's price |
| FilterSidebar.HandleCategoryChange | src/components/FilterSidebar.tsx:22-24 | a category-only update that deselects ("") exactly when the clicked category is the selected one, and otherwise selects the clicked category |
| FilterSidebar.HandlePriceRangeChange | src/components/FilterSidebar.tsx:26-29 | a price-only update `[old min, value]` |
| FilterSidebar.HandleMinPriceChange | src/components/FilterSidebar.tsx:31-34 | a price-only update `[value, old max]` |
| FilterSidebar.HandleSortChange | src/components/FilterSidebar.tsx:36-38 | a sort-only update with the chosen key |
| FilterSidebar.HandleClearFilters | src/components/FilterSidebar.tsx:40-42 | dispatches `clearFilters` |
| FilterSidebar.Dispatch | src/components/FilterSidebar.tsx:22-42 | a handler's action runs `setFilters` or `clearFilters` on the store, with those reducers' effects |
| FilterSidebar.CategoryClickTwice | src/components/FilterSidebar.tsx:23 | a category click keeps every other filter; two clicks on one category restore the filters exactly when that category, or none, was selected |
| FilterSidebar.SelectedCategoryView | src/components/FilterSidebar.tsx:23 | after a new category is selected, every product in the recomputed view has that category |
| FilterSidebar.PriceHandlersKeepOtherBound | src/components/FilterSidebar.tsx:26-34 | each price handler, merged, moves one bound and keeps the other bound and every other filter |
| FilterSidebar.SortChangeKeepsFilters | src/components/FilterSidebar.tsx:36-38 | a sort change, merged, changes only the sort key |
| FilterSidebar.UnclampedRangeEmptiesView | src/components/FilterSidebar.tsx:26-34 | neither handler clamps: a maximum below the minimum, or a minimum above the maximum, empties the view for any products |
| FilterSidebar.MaxPriceKeepsAll | src/components/FilterSidebar.tsx:20 | with the maximum at `maxPrice`, no loaded product fails the price test for being too expensive |
| ProductCard.TruncateTitle | src/components/ProductCard.tsx:33-37 | a title no longer than the limit is kept; a longer one becomes its first `maxLength` characters plus "..."; the result is at most `maxLength + 3` long, with equality exactly when truncated, and starts with the kept prefix |
| ProductCard.TruncateIdempotent | src/components/ProductCard.tsx:33-37 | truncating a truncated title again with the same limit changes nothing |
| ProductCard.CardTitleBound | src/components/ProductCard.tsx:99 | the card's title is at most 63 characters long and keeps the first 60 |

## Left out

- The HTTP calls (`src/api/products.ts`) and the async thunk machinery are left out: network I/O and scheduling. A fetch appears only as the action it dispatches when it settles (`FetchEvent`), handled one at a time.
- The cart (`cartSlice`, `Cart.tsx`, `ProductModal.tsx`) is not part of this model; its reducer is not among the sources.
- `App.tsx` and the JSX of `Header.tsx` are wiring and markup. The header's search box dispatches a one-field `setFilters` update, which `SetFilters` covers.
- JavaScript numbers are not modelled as floating point:
  - prices and ratings are reals;
  - `parseInt` of the price inputs is taken to yield an integer, so NaN is not modelled;
  - `toFixed`, star counts and badges are presentation and are left out.
- JsText.LocaleCompare: compares code unit by code unit instead of by locale collation.
- JsText.ToLowerCase: lower-cases only ASCII letters instead of applying Unicode case mapping.
- Strings are sequences of characters, so UTF-16 surrogate pairs are not modelled.
- The sort comparator's `default: return 0` branch is not modelled: `sortBy` is one of the four declared keys.
- A partial update whose field is present but `undefined` is not modelled; a field is either given or absent.
- ProductGrid.CurrentProducts: requires page >= 1 and a page size >= 1. A page below 1 makes `slice` count from the end. The slice's page size is always 12.
- ProductGrid.Render: the spinner and the empty message are not rendered, only chosen.
- ProductsSlice.ProductsState.SetFilters: requires the slice invariant `Valid()`, which the constructor establishes and every reducer keeps. Other reducers require it for the same reason.
- FilterSidebar.HandleSortChange: takes one of the four sort keys, which is what the select offers, instead of an arbitrary string cast to the type.
- The sidebar's open/close state, the modal and the favourite toggles are UI state and are left out.
