/**
 * The three scenarios of `ProductServiceTest`, stated as lemmas over the
 * model: prices are in cents, so "150.00" is 15000.
 */
module ProductServiceExamples {
  import opened Wrappers
  import opened Text
  import opened CatalogProduct
  import opened ProductOrdering
  import opened ProductService

  function Sample(id: string, name: string, category: string, brand: string, cents: int): Product {
    Product(Some(id), Some(name), Some(name + " description"), Some(brand), Some(category),
            Some(cents), None, Some(10))
  }

  function P1(): Product { Sample("p1", "Wireless Headphones", "Audio", "Sony", 15000) }
  function P2(): Product { Sample("p2", "4K TV", "TV", "LG", 90000) }
  function P3(): Product { Sample("p3", "Phone Charger", "Accessories", "Anker", 2500) }

  function SampleProducts(): seq<Product> { [P1(), P2(), P3()] }

  /** A filter that is already trimmed and lower-case is used as it is. */
  lemma NormalizeNormal(s: string)
    requires s != [] && IsTrimmed(s) && IsLower(s)
    ensures Normalize(Some(s)) == Some(s)
  {
    TrimOfTrimmed(s);
    LowerIsLower(s);
  }

  /** A filter without surrounding spaces is only lower-cased. */
  lemma NormalizeTrimmed(s: string)
    requires s != [] && IsTrimmed(s)
    ensures Normalize(Some(s)) == Some(Lower(s))
  {
    TrimOfTrimmed(s);
  }

  function Q1(): SearchQuery {
    SearchQuery(Some("wireless"), Some("Sony"), Some("Audio"), Some(10000), Some(20000),
                Some("name"), Some("asc"), Some(0), Some(10))
  }

  lemma Q1Normalized()
    ensures Normalize(Q1().search) == Some("wireless")
    ensures Normalize(Q1().brand) == Some("sony")
    ensures Normalize(Q1().category) == Some("audio")
  {
    NormalizeNormal("wireless");
    SonyNormalized();
    AudioNormalized();
  }

  lemma SonyNormalized()
    ensures Normalize(Some("Sony")) == Some("sony")
  {
    NormalizeTrimmed("Sony");
    assert Lower("Sony") == "sony";
  }

  lemma AudioNormalized()
    ensures Normalize(Some("Audio")) == Some("audio")
  {
    NormalizeTrimmed("Audio");
    assert Lower("Audio") == "audio";
  }

  /** The lower-cased "name description" text of p1 starts with "wireless". */
  lemma P1TextHasWireless()
    ensures Contains(SafeLower(P1().name) + " " + SafeLower(P1().description), "wireless")
  {
    var name := "Wireless Headphones";
    var text := SafeLower(P1().name) + " " + SafeLower(P1().description);
    assert Lower("Wireless") == "wireless";
    assert forall i :: 0 <= i < 8 ==> text[i] == LowerChar(name[i]) == Lower("Wireless")[i];
    assert text[0..8] == "wireless";
    assert OccursAt(text, "wireless", 0);
  }

  lemma P1MatchesQ1()
    ensures Matches(P1(), Q1())
  {
    Q1Normalized();
    MatchesSearchUntrimmed(P1(), Q1().search);
    P1TextHasWireless();
    assert SafeLower(Some("Sony")) == "sony";
    assert SafeLower(Some("Audio")) == "audio";
  }

  lemma OthersFailQ1()
    ensures !Matches(P2(), Q1()) && !Matches(P3(), Q1())
  {
    Q1Normalized();
    assert SafeLower(Some("LG"))[0] == 'l';
    assert SafeLower(Some("Anker"))[0] == 'a';
  }

  lemma FilterQ1()
    ensures Filter(SampleProducts(), Q1()) == [P1()]
  {
    P1MatchesQ1();
    OthersFailQ1();
    assert [P3()][1..] == [];
    assert Filter([P3()], Q1()) == [];
    assert [P2(), P3()][1..] == [P3()];
    assert Filter([P2(), P3()], Q1()) == [];
    assert SampleProducts()[1..] == [P2(), P3()];
  }

  lemma SortedQ1()
    ensures SortedMatches(SampleProducts(), Q1()) == [P1()]
  {
    FilterQ1();
    var f := ResolveField(Normalize(Q1().sortBy));
    var d := ResolveDirection(Normalize(Q1().sortDir));
    assert Sort([P1()], f, d) == [P1()];
  }

  /** A single match on the first page is the whole response. */
  lemma SingleMatchFirstPage(catalogue: seq<Product>, q: SearchQuery, p: Product)
    requires SortedMatches(catalogue, q) == [p] && SafePage(q.page) == 0
    ensures var r := SearchProducts(catalogue, q);
            r.items == [p] && r.totalElements == 1
  {
    var r := SearchProducts(catalogue, q);
    SearchResponseDescribesMatches(catalogue, q);
    PaginateSlice([p], 0, r.size);
  }

  /** Search, brand, category and price range together keep only the Sony headphones. */
  lemma FilterBySearchBrandCategoryAndPrice()
    ensures var r := SearchProducts(SampleProducts(), Q1());
            r.items == [P1()] && r.totalElements == 1
  {
    SortedQ1();
    SingleMatchFirstPage(SampleProducts(), Q1(), P1());
  }

  /** With no filter every priced product is kept, in catalogue order. */
  lemma NoFilterKeepsAll(q: SearchQuery)
    requires q.search.None? && q.brand.None? && q.category.None? && q.minPrice.None? && q.maxPrice.None?
    ensures Filter(SampleProducts(), q) == SampleProducts()
  {
    assert Matches(P1(), q) && Matches(P2(), q) && Matches(P3(), q);
    assert [P3()][1..] == [];
    assert Filter([P3()], q) == [P3()];
    assert [P2(), P3()][1..] == [P3()];
    assert Filter([P2(), P3()], q) == [P2(), P3()];
    assert SampleProducts()[1..] == [P2(), P3()];
  }

  lemma SortSamplesByPriceDesc()
    ensures Sort(SampleProducts(), ByPrice, Desc) == [P2(), P1(), P3()]
  {
    assert Sort([P3()], ByPrice, Desc) == [P3()];
    assert [P2(), P3()][1..] == [P3()];
    assert Insert(P2(), [P3()], ByPrice, Desc) == [P2(), P3()];
    assert Sort([P2(), P3()], ByPrice, Desc) == [P2(), P3()];
    assert Insert(P1(), [P3()], ByPrice, Desc) == [P1(), P3()];
    assert Insert(P1(), [P2(), P3()], ByPrice, Desc) == [P2(), P1(), P3()];
    assert SampleProducts()[1..] == [P2(), P3()];
  }

  /** When every match fits on the first page, the page lists them all in response order. */
  lemma FirstPageHoldsAll(catalogue: seq<Product>, q: SearchQuery, sorted: seq<Product>)
    requires SortedMatches(catalogue, q) == sorted
    requires SafePage(q.page) == 0 && |sorted| <= SafeSize(q.size)
    ensures SearchProducts(catalogue, q).items == sorted
  {
    var r := SearchProducts(catalogue, q);
    SearchResponseDescribesMatches(catalogue, q);
    PaginateSlice(sorted, 0, r.size);
  }

  function PriceDescQuery(): SearchQuery {
    SearchQuery(None, None, None, None, None, Some("price"), Some("desc"), Some(0), Some(10))
  }

  lemma SortedByPriceDesc(q: SearchQuery)
    requires q == PriceDescQuery()
    ensures SortedMatches(SampleProducts(), q) == [P2(), P1(), P3()]
  {
    NormalizeNormal("price");
    NormalizeNormal("desc");
    NoFilterKeepsAll(q);
    SortSamplesByPriceDesc();
  }

  /** Sorting by price, descending, lists the TV, the headphones, then the charger. */
  lemma SortByPriceDescending()
    ensures SearchProducts(SampleProducts(), PriceDescQuery()).items == [P2(), P1(), P3()]
  {
    SortedByPriceDesc(PriceDescQuery());
    FirstPageHoldsAll(SampleProducts(), PriceDescQuery(), [P2(), P1(), P3()]);
  }

  /** Page 1 of size 2 over three products holds one product and has no next page. */
  lemma PaginateWithNavigationMetadata()
    ensures var r := SearchProducts(SampleProducts(),
              SearchQuery(None, None, None, None, None, Some("name"), Some("asc"), Some(1), Some(2)));
            && r.page == 1 && r.size == 2 && r.totalElements == 3 && r.totalPages == 2
            && !r.hasNext && r.hasPrevious && |r.items| == 1
  {
    var q := SearchQuery(None, None, None, None, None, Some("name"), Some("asc"), Some(1), Some(2));
    NoFilterKeepsAll(q);
    SearchResponseDescribesMatches(SampleProducts(), q);
    PaginateSlice(SortedMatches(SampleProducts(), q), 1, 2);
  }
}
