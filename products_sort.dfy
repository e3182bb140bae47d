/** The sort step of `applyFilters`: the comparator it hands to
    `Array.prototype.sort` for each `sortBy`, and a stable sort on that
    comparator. ECMAScript requires `Array.prototype.sort` to be stable (since
    the 10th edition, 2019); `StableSortIsUnique` shows that a sorted, stable
    permutation is unique, so the insertion sort below stands for whichever
    stable algorithm an engine uses. */
module ProductsSort {
  import opened Interfaces
  import opened JsText

  /** The comparator of the sort: a value <= 0 lets `a` stay before `b`. */
  function Compare(k: SortBy, a: Product, b: Product): real {
    match k
    case PriceAsc => a.price - b.price
    case PriceDesc => b.price - a.price
    case RatingDesc => b.rating.rate - a.rating.rate
    case NameAsc => LocaleCompare(a.title, b.title) as real
  }

  /** `a` may come before `b` in the sorted output. */
  predicate Le(k: SortBy, a: Product, b: Product) {
    Compare(k, a, b) <= 0.0
  }

  /** `a` and `b` have the same sort key. */
  predicate SameKey(k: SortBy, a: Product, b: Product) {
    match k
    case PriceAsc => a.price == b.price
    case PriceDesc => a.price == b.price
    case RatingDesc => a.rating.rate == b.rating.rate
    case NameAsc => a.title == b.title
  }

  /** The comparator returns zero exactly on products with the same key. */
  lemma CompareZero(k: SortBy, a: Product, b: Product)
    ensures Compare(k, a, b) == 0.0 <==> SameKey(k, a, b)
  {
    if k == NameAsc {
      LocaleCompareZero(a.title, b.title);
    }
  }

  /** The comparator is a total preorder: total, reflexive and transitive. */
  lemma LeTotal(k: SortBy, a: Product, b: Product)
    ensures Le(k, a, b) || Le(k, b, a)
    ensures SameKey(k, a, b) ==> Le(k, a, b)
  {
    if k == NameAsc {
      LocaleCompareAntisymmetric(a.title, b.title);
      LocaleCompareZero(a.title, b.title);
    }
  }

  lemma LeTransitive(k: SortBy, a: Product, b: Product, c: Product)
    requires Le(k, a, b) && Le(k, b, c)
    ensures Le(k, a, c)
  {
    if k == NameAsc {
      LocaleCompareTransitive(a.title, b.title, c.title);
    }
  }

  /** A product whose key is not "no later than" `b` has a different key. */
  lemma NotLeNotSame(k: SortBy, a: Product, b: Product)
    requires !Le(k, a, b)
    ensures !SameKey(k, a, b) && Le(k, b, a)
  {
    LeTotal(k, a, b);
  }

  ghost predicate Sorted(k: SortBy, s: seq<Product>) {
    forall i, j :: 0 <= i < j < |s| ==> Le(k, s[i], s[j])
  }

  /** The products of `s` with the same key as `p`, in their order in `s`. */
  function KeyClass(k: SortBy, p: Product, s: seq<Product>): seq<Product> {
    if s == [] then []
    else (if SameKey(k, s[0], p) then [s[0]] else []) + KeyClass(k, p, s[1..])
  }

  /** Every product with the same key as `p` keeps its relative order. */
  ghost predicate Stable(k: SortBy, s: seq<Product>, r: seq<Product>) {
    forall p :: KeyClass(k, p, r) == KeyClass(k, p, s)
  }

  /** Places `x` before the first element it may precede. */
  function Insert(k: SortBy, x: Product, s: seq<Product>): seq<Product> {
    if s == [] then [x]
    else if Le(k, x, s[0]) then [x] + s
    else [s[0]] + Insert(k, x, s[1..])
  }

  /** Insertion sort on `Le`: each element goes in ahead of the equal keys
      that came after it in the input. */
  function StableSort(k: SortBy, s: seq<Product>): seq<Product> {
    if s == [] then [] else Insert(k, s[0], StableSort(k, s[1..]))
  }

  lemma {:induction false} InsertPermutation(k: SortBy, x: Product, s: seq<Product>)
    ensures multiset(Insert(k, x, s)) == multiset(s) + multiset{x}
  {
    if s != [] && !Le(k, x, s[0]) {
      InsertPermutation(k, x, s[1..]);
      assert s == [s[0]] + s[1..];
    }
  }

  lemma {:induction false} StableSortPermutation(k: SortBy, s: seq<Product>)
    ensures multiset(StableSort(k, s)) == multiset(s)
  {
    if s != [] {
      StableSortPermutation(k, s[1..]);
      InsertPermutation(k, s[0], StableSort(k, s[1..]));
      assert s == [s[0]] + s[1..];
    }
  }

  lemma SortedCons(k: SortBy, x: Product, s: seq<Product>)
    requires Sorted(k, s)
    requires forall y :: y in s ==> Le(k, x, y)
    ensures Sorted(k, [x] + s)
  {
    var t := [x] + s;
    forall i, j | 0 <= i < j < |t| ensures Le(k, t[i], t[j]) {
      if i > 0 {
        assert t[i] == s[i - 1] && t[j] == s[j - 1];
      } else {
        assert t[j] == s[j - 1];
      }
    }
  }

  lemma {:induction false} InsertSorted(k: SortBy, x: Product, s: seq<Product>)
    requires Sorted(k, s)
    ensures Sorted(k, Insert(k, x, s))
  {
    if s == [] {
    } else if Le(k, x, s[0]) {
      forall y | y in s ensures Le(k, x, y) {
        if y != s[0] {
          LeTransitive(k, x, s[0], y);
        }
      }
      SortedCons(k, x, s);
    } else {
      var t := Insert(k, x, s[1..]);
      InsertSorted(k, x, s[1..]);
      NotLeNotSame(k, x, s[0]);
      InsertPermutation(k, x, s[1..]);
      forall y | y in t ensures Le(k, s[0], y) {
        assert y in multiset(t);
        if y != x {
          assert y in s[1..];
        }
      }
      SortedCons(k, s[0], t);
    }
  }

  lemma {:induction false} StableSortSorted(k: SortBy, s: seq<Product>)
    ensures Sorted(k, StableSort(k, s))
  {
    if s != [] {
      StableSortSorted(k, s[1..]);
      InsertSorted(k, s[0], StableSort(k, s[1..]));
    }
  }

  lemma KeyClassCons(k: SortBy, p: Product, x: Product, s: seq<Product>)
    ensures KeyClass(k, p, [x] + s) == (if SameKey(k, x, p) then [x] else []) + KeyClass(k, p, s)
  {
    assert ([x] + s)[1..] == s;
  }

  /** Inserting `x` keeps every key class in the order of `[x] + s`. */
  lemma {:induction false} InsertKeyClass(k: SortBy, p: Product, x: Product, s: seq<Product>)
    ensures KeyClass(k, p, Insert(k, x, s)) == KeyClass(k, p, [x] + s)
  {
    if s != [] && !Le(k, x, s[0]) {
      var y, t := s[0], s[1..];
      NotLeNotSame(k, x, y);
      assert !(SameKey(k, x, p) && SameKey(k, y, p));
      var xs := if SameKey(k, x, p) then [x] else [];
      var ys := if SameKey(k, y, p) then [y] else [];
      assert xs + ys == ys + xs;
      calc {
        KeyClass(k, p, Insert(k, x, s));
        { assert Insert(k, x, s) == [y] + Insert(k, x, t); }
        KeyClass(k, p, [y] + Insert(k, x, t));
        { KeyClassCons(k, p, y, Insert(k, x, t)); }
        ys + KeyClass(k, p, Insert(k, x, t));
        { InsertKeyClass(k, p, x, t); KeyClassCons(k, p, x, t); }
        ys + (xs + KeyClass(k, p, t));
        xs + (ys + KeyClass(k, p, t));
        { assert s == [y] + t; KeyClassCons(k, p, y, t); }
        xs + KeyClass(k, p, s);
        { KeyClassCons(k, p, x, s); }
        KeyClass(k, p, [x] + s);
      }
    }
  }

  lemma {:induction false} StableSortKeyClass(k: SortBy, p: Product, s: seq<Product>)
    ensures KeyClass(k, p, StableSort(k, s)) == KeyClass(k, p, s)
  {
    if s != [] {
      var t := StableSort(k, s[1..]);
      StableSortKeyClass(k, p, s[1..]);
      InsertKeyClass(k, p, s[0], t);
      KeyClassCons(k, p, s[0], t);
      KeyClassCons(k, p, s[0], s[1..]);
      assert s == [s[0]] + s[1..];
    }
  }

  /** The sort is a sorted, stable permutation of its input. */
  lemma StableSortCorrect(k: SortBy, s: seq<Product>)
    ensures multiset(StableSort(k, s)) == multiset(s)
    ensures Sorted(k, StableSort(k, s))
    ensures Stable(k, s, StableSort(k, s))
  {
    StableSortPermutation(k, s);
    StableSortSorted(k, s);
    forall p ensures KeyClass(k, p, StableSort(k, s)) == KeyClass(k, p, s) {
      StableSortKeyClass(k, p, s);
    }
  }

  /** The first elements of two sorted sequences holding the same products
      have the same key. */
  lemma HeadsSameKey(k: SortBy, r1: seq<Product>, r2: seq<Product>)
    requires r1 != [] && r2 != [] && multiset(r1) == multiset(r2)
    requires Sorted(k, r1) && Sorted(k, r2)
    ensures SameKey(k, r1[0], r2[0])
  {
    var a, b := r1[0], r2[0];
    assert b in multiset(r1) && a in multiset(r2);
    var i :| 0 <= i < |r1| && r1[i] == b;
    var j :| 0 <= j < |r2| && r2[j] == a;
    LeTotal(k, a, a);
    LeTotal(k, b, b);
    assert Le(k, a, b) && Le(k, b, a);
    if k == NameAsc {
      LocaleCompareAntisymmetric(a.title, b.title);
    }
    CompareZero(k, a, b);
  }

  lemma SortedTail(k: SortBy, r: seq<Product>)
    requires r != [] && Sorted(k, r)
    ensures Sorted(k, r[1..])
  {
    var t := r[1..];
    forall i, j | 0 <= i < j < |t| ensures Le(k, t[i], t[j]) {
      assert t[i] == r[i + 1] && t[j] == r[j + 1];
    }
  }

  /** Removing the same first element from two sequences keeps their key
      classes equal. */
  lemma KeyClassTail(k: SortBy, a: Product, s1: seq<Product>, s2: seq<Product>)
    requires Stable(k, [a] + s1, [a] + s2)
    ensures Stable(k, s1, s2)
  {
    forall p ensures KeyClass(k, p, s2) == KeyClass(k, p, s1) {
      var xs := if SameKey(k, a, p) then [a] else [];
      KeyClassCons(k, p, a, s1);
      KeyClassCons(k, p, a, s2);
      assert KeyClass(k, p, s1) == KeyClass(k, p, [a] + s1)[|xs|..];
      assert KeyClass(k, p, s2) == KeyClass(k, p, [a] + s2)[|xs|..];
    }
  }

  /** Two sequences whose first elements share a key, and whose key classes
      for that key agree, start with the same product. */
  lemma SameHead(k: SortBy, a: Product, b: Product, t1: seq<Product>, t2: seq<Product>)
    requires SameKey(k, b, a)
    requires KeyClass(k, a, [a] + t1) == KeyClass(k, a, [b] + t2)
    ensures a == b
  {
    assert SameKey(k, a, a);
    KeyClassCons(k, a, a, t1);
    KeyClassCons(k, a, b, t2);
    assert KeyClass(k, a, [a] + t1)[0] == a;
  }

  lemma MultisetTail(r1: seq<Product>, r2: seq<Product>)
    requires r1 != [] && r2 != [] && r1[0] == r2[0] && multiset(r1) == multiset(r2)
    ensures multiset(r1[1..]) == multiset(r2[1..])
  {
    assert r1 == [r1[0]] + r1[1..] && r2 == [r2[0]] + r2[1..];
    assert multiset(r1[1..]) == multiset(r1) - multiset{r1[0]};
    assert multiset(r2[1..]) == multiset(r2) - multiset{r2[0]};
  }

  /** Two sorted sequences holding the same products, with every key class in
      the same order, are equal. */
  lemma {:induction false} SortedStableEqual(k: SortBy, r1: seq<Product>, r2: seq<Product>)
    requires multiset(r1) == multiset(r2)
    requires Sorted(k, r1) && Sorted(k, r2)
    requires Stable(k, r1, r2)
    ensures r1 == r2
  {
    assert |r1| == |multiset(r1)| == |multiset(r2)| == |r2|;
    if r1 != [] {
      var t1, t2 := r1[1..], r2[1..];
      HeadsSameKey(k, r1, r2);
      assert r1 == [r1[0]] + t1 && r2 == [r2[0]] + t2;
      assert KeyClass(k, r1[0], r1) == KeyClass(k, r1[0], r2);
      SameHead(k, r1[0], r2[0], t1, t2);
      KeyClassTail(k, r1[0], t2, t1);
      MultisetTail(r1, r2);
      SortedTail(k, r1);
      SortedTail(k, r2);
      SortedStableEqual(k, t1, t2);
    }
  }

  /** Any sorted, stable permutation of `s` is exactly `StableSort(k, s)`. */
  lemma StableSortIsUnique(k: SortBy, s: seq<Product>, r: seq<Product>)
    requires multiset(r) == multiset(s)
    requires Sorted(k, r)
    requires Stable(k, s, r)
    ensures r == StableSort(k, s)
  {
    StableSortCorrect(k, s);
    SortedStableEqual(k, StableSort(k, s), r);
  }
}
