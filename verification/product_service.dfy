/**
 * `ProductService.searchProducts`: normalise the filters, clamp the paging
 * parameters, filter the catalogue, stable-sort it and cut out one page.
 */
module ProductService {
  import opened Wrappers
  import opened Text
  import opened CatalogProduct
  import opened ProductOrdering

  /** The arguments of `searchProducts`, each of which may be `null`. */
  datatype SearchQuery = SearchQuery(
    search: Option<string>,
    brand: Option<string>,
    category: Option<string>,
    minPrice: Option<int>,
    maxPrice: Option<int>,
    sortBy: Option<string>,
    sortDir: Option<string>,
    page: Option<int>,
    size: Option<int>
  )

  /** `ProductListResponse`: one page plus the paging metadata. */
  datatype ProductListResponse = ProductListResponse(
    items: seq<Product>,
    page: int,
    size: int,
    totalElements: int,
    totalPages: int,
    hasPrevious: bool,
    hasNext: bool
  )

  /** `normalize`: absent or blank means "no filter"; otherwise trimmed and lower-cased. */
  function Normalize(value: Option<string>): (r: Option<string>)
    ensures r.None? <==> value.None? || IsBlank(value.value)
    ensures r.Some? ==> r.value != [] && IsTrimmed(r.value) && IsLower(r.value)
    ensures r.Some? ==> |r.value| <= |value.value|
  {
    match value
    case None => None
    case Some(v) =>
      var t := Trim(v);
      if t == [] then None
      else
        LowerKeepsTrimmed(t);
        LowerIsLower(t);
        Some(Lower(t))
  }

  /** Normalising twice is normalising once. */
  lemma NormalizeIdempotent(value: Option<string>)
    ensures Normalize(Normalize(value)) == Normalize(value)
  {
    var r := Normalize(value);
    if r.Some? {
      TrimOfTrimmed(r.value);
      LowerIsLower(r.value);
    }
  }

  /** Surrounding spaces and letter case of a filter make no difference. */
  lemma {:induction false} NormalizeIgnoresPaddingAndCase(s: string)
    ensures Normalize(Some(Lower(s))) == Normalize(Some(s))
    ensures Normalize(Some(Trim(s))) == Normalize(Some(s))
  {
    TrimLowerCommute(s);
    var t := Trim(s);
    assert Trim(Lower(s)) == Lower(t);
    if t != [] {
      TrimOfTrimmed(t);
      LowerIsLower(t);
      LowerIsLower(Lower(t));
      assert Lower(Lower(t)) == Lower(t);
      assert Normalize(Some(Lower(s))) == Some(Lower(Lower(t)));
    } else {
      assert Lower(t) == [];
    }
  }

  lemma {:induction false} LeadingSpacesLower(s: string)
    ensures LeadingSpaces(Lower(s)) == LeadingSpaces(s)
  {
    if s != [] {
      assert Lower(s)[1..] == Lower(s[1..]);
      LeadingSpacesLower(s[1..]);
    }
  }

  lemma {:induction false} TrailingSpacesLower(s: string)
    ensures TrailingSpaces(Lower(s)) == TrailingSpaces(s)
  {
    if s != [] {
      assert Lower(s)[..|s| - 1] == Lower(s[..|s| - 1]);
      TrailingSpacesLower(s[..|s| - 1]);
    }
  }

  /** Lower-casing a slice is slicing the lower-cased string. */
  lemma LowerSlice(s: string, a: nat, e: nat)
    requires a <= e <= |s|
    ensures Lower(s)[a..e] == Lower(s[a..e])
  {
    assert forall i :: 0 <= i < e - a ==> Lower(s)[a..e][i] == LowerChar(s[a + i]) == Lower(s[a..e])[i];
  }

  /** Lower-casing moves neither end of the trimmed slice. */
  lemma TrimBoundsLower(s: string)
    ensures TrimFrom(Lower(s)) == TrimFrom(s) && TrimTo(Lower(s)) == TrimTo(s)
  {
    LeadingSpacesLower(s);
    var a := TrimFrom(s);
    LowerSlice(s, a, |s|);
    TrailingSpacesLower(s[a..]);
  }

  lemma TrimLowerCommute(s: string)
    ensures Trim(Lower(s)) == Lower(Trim(s))
  {
    TrimBoundsLower(s);
    LowerSlice(s, TrimFrom(s), TrimTo(s));
  }

  /** `page == null || page < 0 ? 0 : page`. */
  function SafePage(page: Option<int>): (p: int)
    ensures p >= 0
    ensures page.Some? && page.value >= 0 ==> p == page.value
    ensures page.None? || page.value < 0 ==> p == 0
  {
    if page.None? || page.value < 0 then 0 else page.value
  }

  /** `size == null || size <= 0 ? 10 : Math.min(size, 100)`. */
  function SafeSize(size: Option<int>): (s: int)
    ensures 1 <= s <= 100
    ensures size.Some? && 1 <= size.value <= 100 ==> s == size.value
    ensures size.Some? && size.value > 100 ==> s == 100
    ensures size.None? || size.value <= 0 ==> s == 10
  {
    if size.None? || size.value <= 0 then 10
    else if size.value < 100 then size.value else 100
  }

  /** `matchesSearch`: the needle occurs in the trimmed "name description" text. */
  predicate MatchesSearch(p: Product, needle: Option<string>) {
    needle.None? || Contains(Trim(SafeLower(p.name) + " " + SafeLower(p.description)), needle.value)
  }

  /** `matchesExactFilter`: the value equals the filter once lower-cased. */
  predicate MatchesExactFilter(value: Option<string>, filter: Option<string>) {
    filter.None? || filter.value == SafeLower(value)
  }

  /** `matchesPriceRange`: a priced product within the inclusive bounds given. */
  predicate MatchesPriceRange(p: Product, minPrice: Option<int>, maxPrice: Option<int>) {
    p.price.Some?
    && (minPrice.None? || p.price.value >= minPrice.value)
    && (maxPrice.None? || p.price.value <= maxPrice.value)
  }

  /** All four filters of the stream pipeline. */
  predicate Matches(p: Product, q: SearchQuery) {
    && MatchesSearch(p, Normalize(q.search))
    && MatchesExactFilter(p.brand, Normalize(q.brand))
    && MatchesExactFilter(p.category, Normalize(q.category))
    && MatchesPriceRange(p, q.minPrice, q.maxPrice)
  }

  /** The catalogue products that pass the filters, in catalogue order. */
  function Filter(catalogue: seq<Product>, q: SearchQuery): (r: seq<Product>)
    ensures |r| <= |catalogue|
    ensures forall p :: p in r <==> p in catalogue && Matches(p, q)
  {
    if catalogue == [] then []
    else (if Matches(catalogue[0], q) then [catalogue[0]] else []) + Filter(catalogue[1..], q)
  }

  /** Filtering keeps catalogue order: a catalogue split in two filters part by part. */
  lemma {:induction false} FilterAppend(a: seq<Product>, b: seq<Product>, q: SearchQuery)
    ensures Filter(a + b, q) == Filter(a, q) + Filter(b, q)
  {
    if a == [] {
      assert a + b == b;
    } else {
      assert (a + b)[0] == a[0];
      assert (a + b)[1..] == a[1..] + b;
      FilterAppend(a[1..], b, q);
    }
  }

  /** Queries whose filters normalise alike and whose price bounds agree keep the same products. */
  lemma {:induction false} FilterSameNormalForm(catalogue: seq<Product>, q1: SearchQuery, q2: SearchQuery)
    requires Normalize(q1.search) == Normalize(q2.search)
    requires Normalize(q1.brand) == Normalize(q2.brand)
    requires Normalize(q1.category) == Normalize(q2.category)
    requires q1.minPrice == q2.minPrice && q1.maxPrice == q2.maxPrice
    ensures Filter(catalogue, q1) == Filter(catalogue, q2)
  {
    if catalogue != [] {
      FilterSameNormalForm(catalogue[1..], q1, q2);
    }
  }

  /** The matching products in the order the response lists them. */
  function SortedMatches(catalogue: seq<Product>, q: SearchQuery): seq<Product> {
    Sort(Filter(catalogue, q), ResolveField(Normalize(q.sortBy)), ResolveDirection(Normalize(q.sortDir)))
  }

  /** `totalElements == 0 ? 0 : ceil(totalElements / size)`. */
  function TotalPages(total: nat, size: int): (n: nat)
    requires size > 0
    ensures total == 0 <==> n == 0
    ensures n > 0 ==> (n - 1) * size < total <= n * size
  {
    if total == 0 then 0
    else
      var n := (total + size - 1) / size;
      CeilBounds(total, size);
      n
  }

  lemma CeilBounds(total: nat, size: int)
    requires size > 0 && total > 0
    ensures (total + size - 1) / size > 0
    ensures ((total + size - 1) / size - 1) * size < total <= ((total + size - 1) / size) * size
  {
    var n := (total + size - 1) / size;
    var m := (total + size - 1) % size;
    assert total + size - 1 == n * size + m;
    assert (n - 1) * size == n * size - size;
  }

  /** The matching products in response order have exactly the matching products as elements. */
  lemma SortedMatchesElements(catalogue: seq<Product>, q: SearchQuery)
    ensures |SortedMatches(catalogue, q)| == |Filter(catalogue, q)|
    ensures forall p :: p in SortedMatches(catalogue, q) <==> p in catalogue && Matches(p, q)
  {
    var f := Filter(catalogue, q);
    var sorted := SortedMatches(catalogue, q);
    SortCorrect(f, ResolveField(Normalize(q.sortBy)), ResolveDirection(Normalize(q.sortDir)));
    assert |multiset(sorted)| == |multiset(f)|;
    forall p ensures p in sorted <==> p in f {
      assert p in sorted <==> p in multiset(sorted);
      assert p in f <==> p in multiset(f);
    }
  }

  function Min(a: int, b: int): int {
    if a < b then a else b
  }

  /** `fromIndex >= n ? emptyList : subList(fromIndex, min(fromIndex + size, n))`. */
  function PageSlice(sorted: seq<Product>, page: nat, size: int): (items: seq<Product>)
    requires size > 0
    ensures |items| == if page * size >= |sorted| then 0 else Min(size, |sorted| - page * size)
    ensures forall i :: 0 <= i < |items| ==> page * size + i < |sorted| && items[i] == sorted[page * size + i]
  {
    var fromIndex := page * size;
    var toIndex := Min(fromIndex + size, |sorted|);
    if fromIndex >= |sorted| then [] else sorted[fromIndex..toIndex]
  }

  /** The response for one page of an already sorted list (`searchProducts`, lines 56-73). */
  function Paginate(sorted: seq<Product>, page: nat, size: int): (r: ProductListResponse)
    requires size > 0
    ensures r.page == page && r.size == size && r.totalElements == |sorted|
    ensures 0 <= |r.items| <= size
    ensures forall i :: 0 <= i < |r.items| ==> page * size + i < |sorted| && r.items[i] == sorted[page * size + i]
    ensures r.hasPrevious <==> page > 0
    ensures r.hasNext <==> r.totalPages > 0 && page < r.totalPages - 1
  {
    var totalPages := TotalPages(|sorted|, size);
    ProductListResponse(PageSlice(sorted, page, size), page, size, |sorted|, totalPages, page > 0,
                        totalPages > 0 && page < totalPages - 1)
  }

  /** `searchProducts`. */
  function SearchProducts(catalogue: seq<Product>, q: SearchQuery): (r: ProductListResponse)
    ensures r.page == SafePage(q.page) && r.size == SafeSize(q.size)
    ensures 0 <= |r.items| <= r.size
    ensures r.hasPrevious <==> r.page > 0
    ensures r.hasNext <==> r.totalPages > 0 && r.page < r.totalPages - 1
  {
    Paginate(SortedMatches(catalogue, q), SafePage(q.page), SafeSize(q.size))
  }

  /** The page is the contiguous run of the sorted list starting at page * size, empty past the end. */
  lemma PaginateSlice(sorted: seq<Product>, page: nat, size: int)
    requires size > 0
    ensures var r := Paginate(sorted, page, size);
            && (page * size >= |sorted| <==> r.items == [])
            && (page * size < |sorted| ==> |r.items| == Min(size, |sorted| - page * size))
  {
  }

  /** The paging metadata agrees with the page: there are items exactly on pages before `totalPages`. */
  lemma PaginateConsistent(sorted: seq<Product>, page: nat, size: int)
    requires size > 0
    ensures var r := Paginate(sorted, page, size);
            && (r.totalPages == 0 <==> |sorted| == 0)
            && (r.totalPages > 0 ==> (r.totalPages - 1) * size < |sorted| <= r.totalPages * size)
            && (|r.items| > 0 <==> page < r.totalPages)
            && (r.hasNext ==> |r.items| == size)
  {
    var r := Paginate(sorted, page, size);
    var n, pages := |sorted|, r.totalPages;
    assert pages == TotalPages(n, size);
    assert |r.items| > 0 <==> page < pages by {
      PageArith(n, page, size, pages);
      PaginateSlice(sorted, page, size);
    }
    assert r.hasNext ==> |r.items| == size by {
      PageArith(n, page, size, pages);
      PaginateSlice(sorted, page, size);
    }
  }

  /** Where page `page` starts, measured against the ceiling `pages` of `n` over `size`. */
  lemma PageArith(n: nat, page: nat, size: int, pages: nat)
    requires size > 0
    requires n == 0 <==> pages == 0
    requires pages > 0 ==> (pages - 1) * size < n <= pages * size
    ensures page * size < n <==> page < pages
    ensures page + 1 < pages ==> page * size + size <= n
  {
    if page < pages {
      MulMono(page, pages - 1, size);
    } else {
      MulMono(pages, page, size);
    }
    if page + 1 < pages {
      MulMono(page + 1, pages - 1, size);
      assert (page + 1) * size == page * size + size;
    }
  }

  lemma MulMono(a: int, b: int, c: int)
    requires 0 <= a <= b && c >= 0
    ensures a * c <= b * c
  {
  }

  /** Every listed product is from the catalogue and passes every filter, so it has a price. */
  lemma SearchItemsMatch(catalogue: seq<Product>, q: SearchQuery, p: Product)
    requires p in SearchProducts(catalogue, q).items
    ensures p in catalogue && Matches(p, q)
    ensures p.price.Some?
  {
    SortedMatchesElements(catalogue, q);
    var sorted := SortedMatches(catalogue, q);
    var r := Paginate(sorted, SafePage(q.page), SafeSize(q.size));
    var i :| 0 <= i < |r.items| && r.items[i] == p;
    assert p in sorted;
  }

  /** A product without a price is never listed, even with no price bounds. */
  lemma NullPriceNeverListed(catalogue: seq<Product>, q: SearchQuery, p: Product)
    requires p.price.None?
    ensures p !in SearchProducts(catalogue, q).items
  {
    if p in SearchProducts(catalogue, q).items {
      SearchItemsMatch(catalogue, q, p);
    }
  }

  /**
   * The matches are listed as a permutation of the filtered catalogue, ordered
   * by the resolved comparator, with ties in catalogue order.
   */
  lemma SortedMatchesOrdered(catalogue: seq<Product>, q: SearchQuery, k: Product)
    ensures multiset(SortedMatches(catalogue, q)) == multiset(Filter(catalogue, q))
    ensures Sorted(SortedMatches(catalogue, q), ResolveField(Normalize(q.sortBy)), ResolveDirection(Normalize(q.sortDir)))
    ensures Tied(SortedMatches(catalogue, q), ResolveField(Normalize(q.sortBy)), k)
         == Tied(Filter(catalogue, q), ResolveField(Normalize(q.sortBy)), k)
  {
    var field, dir := ResolveField(Normalize(q.sortBy)), ResolveDirection(Normalize(q.sortDir));
    SortCorrect(Filter(catalogue, q), field, dir);
    SortStable(Filter(catalogue, q), field, dir, k);
  }

  /**
   * The response describes the sorted matches: it counts every match, its
   * page count is the ceiling that `TotalPages` characterises, and its items
   * are the `subList` window `PageSlice` characterises.
   */
  lemma SearchResponseDescribesMatches(catalogue: seq<Product>, q: SearchQuery)
    ensures var r := SearchProducts(catalogue, q);
            var sorted := SortedMatches(catalogue, q);
            && r.totalElements == |sorted| == |Filter(catalogue, q)|
            && r.totalPages == TotalPages(|sorted|, r.size)
            && r.items == PageSlice(sorted, r.page, r.size)
  {
    SortedMatchesElements(catalogue, q);
  }

  /** Matching against the trimmed text is matching against the untrimmed concatenation. */
  lemma MatchesSearchUntrimmed(p: Product, search: Option<string>)
    ensures var needle := Normalize(search);
            MatchesSearch(p, needle)
            <==> needle.None? || Contains(SafeLower(p.name) + " " + SafeLower(p.description), needle.value)
  {
    var needle := Normalize(search);
    if needle.Some? {
      ContainsTrimmed(SafeLower(p.name) + " " + SafeLower(p.description), needle.value);
    }
  }

  /** A normalised search term found in the lower-cased name or in the lower-cased description is a match. */
  lemma SearchFindsNameOrDescription(p: Product, search: Option<string>)
    requires Normalize(search).Some?
    ensures var n := Normalize(search).value;
            Contains(SafeLower(p.name), n) || Contains(SafeLower(p.description), n) ==> MatchesSearch(p, Normalize(search))
  {
    var n := Normalize(search).value;
    var name, desc := SafeLower(p.name), SafeLower(p.description);
    var h := name + " " + desc;
    assert Contains(name, n) || Contains(desc, n) ==> Contains(h, n) by {
      ContainsInPrefix(name, " " + desc, n);
      ContainsInSuffix(name + " ", desc, n);
      assert h == name + (" " + desc);
    }
    MatchesSearchUntrimmed(p, search);
  }

  /**
   * A product with no brand (or category) fails every non-blank filter on it,
   * and a trimmed, non-blank value passes the filter typed as itself.
   */
  lemma ExactFilterMatches(value: Option<string>, s: string)
    ensures !IsBlank(s) ==> !MatchesExactFilter(None, Normalize(Some(s)))
    ensures value.Some? && !IsBlank(value.value) && IsTrimmed(value.value) ==> MatchesExactFilter(value, Normalize(value))
  {
    if value.Some? && !IsBlank(value.value) && IsTrimmed(value.value) {
      TrimOfTrimmed(value.value);
    }
  }
}
