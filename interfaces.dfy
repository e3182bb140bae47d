/** The records the catalog works on: a product as the store API delivers it,
    the filter state of the catalog view, and a partial update of that state
    (TypeScript's `Partial<FilterState>`). */
module Interfaces {

  datatype Option<T> = None | Some(value: T)

  /** Prices and ratings are JavaScript numbers that the catalog only compares
      and subtracts, so they are kept as reals. */
  datatype Rating = Rating(rate: real, count: int)

  datatype Product = Product(
    id: int,
    title: string,
    price: real,
    description: string,
    category: string,
    image: string,
    rating: Rating)

  /** The four values of `sortBy`: 'price-asc', 'price-desc', 'rating-desc'
      and 'name-asc'. */
  datatype SortBy = PriceAsc | PriceDesc | RatingDesc | NameAsc

  /** `priceRange` is the pair [min, max]; nothing forces min <= max. */
  datatype FilterState = FilterState(
    category: string,
    priceRange: (real, real),
    sortBy: SortBy,
    searchQuery: string)

  /** A partial filter update: every field is either given or absent. */
  datatype PartialFilter = PartialFilter(
    category: Option<string>,
    priceRange: Option<(real, real)>,
    sortBy: Option<SortBy>,
    searchQuery: Option<string>)

  /** The empty partial `{}`. */
  const NO_CHANGE := PartialFilter(None, None, None, None)
}
