/** The product grid: what it shows for a loading state, an empty view and a
    page of the view, and the page window arithmetic behind "Showing X-Y of N".
    The page and the page size come from the products slice, whose page size
    is always 12; pages are numbered from 1. */
module ProductGrid {
  import opened Interfaces

  function Min(a: int, b: int): int {
    if a <= b then a else b
  }

  /** `(currentPage - 1) * productsPerPage`: the index of the page's first product. */
  function StartIndex(currentPage: int, productsPerPage: int): int {
    (currentPage - 1) * productsPerPage
  }

  /** `startIndex + productsPerPage`: one past the page's last slot. */
  function EndIndex(currentPage: int, productsPerPage: int): int {
    StartIndex(currentPage, productsPerPage) + productsPerPage
  }

  /** `Array.prototype.slice(start, end)` for non-negative bounds: both bounds
      are cut down to the length, and an empty window gives an empty list. */
  function Slice<T>(s: seq<T>, start: nat, end: nat): (r: seq<T>)
    ensures |r| == if start < Min(end, |s|) then Min(end, |s|) - start else 0
    ensures forall i :: 0 <= i < |r| ==> r[i] == s[start + i]
  {
    var hi := Min(end, |s|);
    if start < hi then s[start..hi] else []
  }

  /** `filteredProducts.slice(startIndex, endIndex)`: the products of one page. */
  function CurrentProducts(filtered: seq<Product>, currentPage: int, productsPerPage: int): (r: seq<Product>)
    requires currentPage >= 1 && productsPerPage >= 1
    ensures |r| <= productsPerPage
    ensures StartIndex(currentPage, productsPerPage) >= |filtered| ==> r == []
    ensures StartIndex(currentPage, productsPerPage) < |filtered| ==>
      r == filtered[StartIndex(currentPage, productsPerPage)..Min(EndIndex(currentPage, productsPerPage), |filtered|)]
  {
    Slice(filtered, StartIndex(currentPage, productsPerPage), EndIndex(currentPage, productsPerPage))
  }

  /** The label "Showing X-Y of N": `X == startIndex + 1`,
      `Y == Math.min(endIndex, N)` and `N` the length of the view. */
  datatype Label = Label(from: int, to: int, total: int)

  function ShowingLabel(filtered: seq<Product>, currentPage: int, productsPerPage: int): (r: Label)
    requires currentPage >= 1 && productsPerPage >= 1
    ensures r.total == |filtered| && 1 <= r.from && r.to <= r.total
  {
    var start := StartIndex(currentPage, productsPerPage);
    Label(start + 1, Min(EndIndex(currentPage, productsPerPage), |filtered|), |filtered|)
  }

  /** The three things the grid can show. */
  datatype GridView =
    | Spinner
    | NoProducts
    | Grid(showing: Label, items: seq<Product>)

  /** The grid component: the loading test comes first, then the empty test,
      and only a non-empty view that is not loading reaches the page window. */
  function Render(loading: bool, filtered: seq<Product>, currentPage: int, productsPerPage: int): (r: GridView)
    requires !loading && filtered != [] ==> currentPage >= 1 && productsPerPage >= 1
    ensures loading <==> r == Spinner
    ensures r == NoProducts <==> !loading && filtered == []
    ensures r.Grid? ==> |r.items| <= productsPerPage && r.showing.to <= |filtered|
    ensures r.Grid? ==> forall p :: p in r.items ==> p in filtered
  {
    if loading then Spinner
    else if filtered == [] then NoProducts
    else Grid(ShowingLabel(filtered, currentPage, productsPerPage), CurrentProducts(filtered, currentPage, productsPerPage))
  }

  /** The number of the last page, `ceil(N / productsPerPage)`. */
  function PageCount(total: nat, productsPerPage: int): nat
    requires productsPerPage >= 1
  {
    (total + productsPerPage - 1) / productsPerPage
  }

  /** Pages 1 through `n`, one after the other. */
  function PagesThrough(filtered: seq<Product>, n: nat, productsPerPage: int): seq<Product>
    requires productsPerPage >= 1
  {
    if n == 0 then [] else PagesThrough(filtered, n - 1, productsPerPage) + CurrentProducts(filtered, n, productsPerPage)
  }

  lemma MulMonotone(a: int, b: int, c: int)
    requires 0 <= a <= b && c >= 0
    ensures a * c <= b * c
  {
  }

  /** Pages 1 through `n` are the first `n * productsPerPage` products of the
      view (all of it when there are fewer): no product is skipped or shown
      twice. */
  lemma {:induction false} PagesThroughPrefix(filtered: seq<Product>, n: nat, productsPerPage: int)
    requires productsPerPage >= 1
    ensures PagesThrough(filtered, n, productsPerPage) == filtered[..Min(n * productsPerPage, |filtered|)]
  {
    if n > 0 {
      PagesThroughPrefix(filtered, n - 1, productsPerPage);
      var start := StartIndex(n, productsPerPage);
      assert start == (n - 1) * productsPerPage;
      assert EndIndex(n, productsPerPage) == n * productsPerPage;
      MulMonotone(n - 1, n, productsPerPage);
      if start < |filtered| {
        assert filtered[..start] + filtered[start..Min(n * productsPerPage, |filtered|)]
          == filtered[..Min(n * productsPerPage, |filtered|)];
      }
    }
  }

  lemma PageCountBounds(total: nat, productsPerPage: int)
    requires productsPerPage >= 1
    ensures PageCount(total, productsPerPage) * productsPerPage >= total
    ensures total > 0 ==> (PageCount(total, productsPerPage) - 1) * productsPerPage < total
  {
    var a := total + productsPerPage - 1;
    var q, m := a / productsPerPage, a % productsPerPage;
    assert a == q * productsPerPage + m && 0 <= m < productsPerPage;
    assert (q - 1) * productsPerPage == q * productsPerPage - productsPerPage;
  }

  /** Pages 1 through the last one give back the whole view. */
  lemma AllPagesRebuildView(filtered: seq<Product>, productsPerPage: int)
    requires productsPerPage >= 1
    ensures PagesThrough(filtered, PageCount(|filtered|, productsPerPage), productsPerPage) == filtered
  {
    PagesThroughPrefix(filtered, PageCount(|filtered|, productsPerPage), productsPerPage);
    PageCountBounds(|filtered|, productsPerPage);
  }

  /** Page `n` ends where page `n + 1` starts, so the two together are the
      view's window from the start of `n` to the end of `n + 1`. */
  lemma PagesAdjacent(filtered: seq<Product>, n: int, productsPerPage: int)
    requires n >= 1 && productsPerPage >= 1
    ensures EndIndex(n, productsPerPage) == StartIndex(n + 1, productsPerPage)
    ensures CurrentProducts(filtered, n, productsPerPage) + CurrentProducts(filtered, n + 1, productsPerPage)
      == Slice(filtered, StartIndex(n, productsPerPage), EndIndex(n + 1, productsPerPage))
  {
    var s0, s1, s2 := StartIndex(n, productsPerPage), StartIndex(n + 1, productsPerPage), EndIndex(n + 1, productsPerPage);
    assert s1 == s0 + productsPerPage && s2 == s1 + productsPerPage;
    var len := |filtered|;
    if s1 < len {
      assert filtered[s0..s1] + filtered[s1..Min(s2, len)] == filtered[s0..Min(s2, len)];
    }
  }

  /** A page shows something exactly when its number is between 1 and the
      last page's. */
  lemma PageNonEmpty(filtered: seq<Product>, n: int, productsPerPage: int)
    requires n >= 1 && productsPerPage >= 1
    ensures CurrentProducts(filtered, n, productsPerPage) != [] <==> n <= PageCount(|filtered|, productsPerPage)
  {
    var last := PageCount(|filtered|, productsPerPage);
    PageCountBounds(|filtered|, productsPerPage);
    if |filtered| == 0 {
      assert last == 0;
    } else if n <= last {
      MulMonotone(n - 1, last - 1, productsPerPage);
    } else {
      MulMonotone(last, n - 1, productsPerPage);
    }
  }

  /** Past the last page the label's lower bound exceeds its upper bound;
      on any other page the label counts exactly the products shown. */
  lemma LabelCountsItems(filtered: seq<Product>, currentPage: int, productsPerPage: int)
    requires currentPage >= 1 && productsPerPage >= 1
    ensures var l := ShowingLabel(filtered, currentPage, productsPerPage);
      var items := CurrentProducts(filtered, currentPage, productsPerPage);
      && (items == [] <==> l.from > l.to)
      && (items != [] ==> l.to - l.from + 1 == |items|)
  {
  }
}
