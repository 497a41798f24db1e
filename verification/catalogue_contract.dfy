/**
 * The boundary between the two halves: the query string `fetchProducts`
 * sends (`productsService.ts`) read as the request parameters of
 * `ProductController.getProducts`. Whatever the view's filters and sort
 * choices, the request is accepted and reaches the service as intended.
 */
module CatalogueContract {
  import opened Wrappers
  import opened Text
  import PS = ProductsService
  import UP = UseProducts
  import AV = AppView
  import PC = ProductController
  import PO = ProductOrdering
  import SV = ProductService
  import CP = CatalogProduct

  /**
   * Where `NumberUtils.isHexNumber` finds a hexadecimal prefix at `i` (just
   * after an optional minus): 2 for `0x` or `0X`, 1 for `#`, 0 for none.
   */
  function HexPrefix(t: string, i: nat): (k: nat)
    ensures k <= 2 && (k > 0 ==> i + k <= |t|)
    ensures k == 1 <==> i < |t| && t[i] == '#'
  {
    if i + 2 <= |t| && t[i] == '0' && (t[i + 1] == 'x' || t[i + 1] == 'X') then 2
    else if i < |t| && t[i] == '#' then 1
    else 0
  }

  /** A sign and a magnitude, when the signed value fits in an `Integer`. */
  function InIntRange(negative: bool, magnitude: nat): (r: Option<int>)
    ensures r.Some? <==> (if negative then magnitude <= -PC.IntMin else magnitude <= PC.IntMax)
    ensures r.Some? ==> r.value == (if negative then -(magnitude as int) else magnitude)
  {
    var v := if negative then -(magnitude as int) else magnitude;
    if PC.IntMin <= v <= PC.IntMax then Some(v) else None
  }

  /**
   * `NumberUtils.parseNumber(t, Integer.class)` on text already cleared of
   * whitespace: `Integer.decode` when a `0x`, `0X` or `#` prefix follows an
   * optional minus, `Integer.valueOf` (an optional `+` or `-`, then decimal
   * digits) otherwise. `None` is a `NumberFormatException`: no digits, a
   * character that is not a digit of the radix, or a value outside the
   * `Integer` range (`Integer.decode` accepts `-0x80000000`).
   */
  function ParseInteger(t: string): (r: Option<int>)
    ensures r.Some? ==> PC.IntMin <= r.value <= PC.IntMax
    ensures t == [] ==> r.None?
  {
    var negative := |t| > 0 && t[0] == '-';
    var afterSign := if negative then 1 else 0;
    var prefix := HexPrefix(t, afterSign);
    if prefix > 0 then
      var digits := t[afterSign + prefix..];
      if digits != [] && AllHexDigits(digits) then InIntRange(negative, HexValue(digits)) else None
    else
      var signed := |t| > 0 && (t[0] == '-' || t[0] == '+');
      var digits := t[if signed then 1 else 0..];
      if digits != [] && AllDigits(digits) then InIntRange(negative, DecimalValue(digits)) else None
  }

  /**
   * A numeric parameter as Spring converts it to `Integer`. Missing or empty
   * text takes the `defaultValue`. Otherwise every whitespace character is
   * removed and the rest must parse (`ParseInteger`), or the parameter does
   * not convert. Text that is only whitespace fails that conversion, and
   * Spring's fallback property editor, `CustomNumberEditor` with empty values
   * allowed, turns it into null. The service reads a null page or size as
   * 0 or 10, the declared defaults, so it is absent here too.
   */
  function NumberParam(v: Option<string>): (a: PC.NumArg)
    ensures a.Absent? <==> v.None? || RemoveWhitespace(v.value) == []
    ensures v.Some? && v.value == [] ==> a.Absent?
    ensures a.Given? ==> PC.IntMin <= a.value <= PC.IntMax
  {
    match v
    case None => PC.Absent
    case Some(s) =>
      var t := RemoveWhitespace(s);
      if t == [] then PC.Absent
      else match ParseInteger(t)
        case Some(n) => PC.Given(n)
        case None => PC.Malformed
  }

  /** A plain string of decimal digits converts to its value exactly when that fits in an `Integer`. */
  lemma DigitsParam(s: string)
    requires s != [] && AllDigits(s)
    ensures DecimalValue(s) <= PC.IntMax ==> NumberParam(Some(s)) == PC.Given(DecimalValue(s))
    ensures DecimalValue(s) > PC.IntMax ==> NumberParam(Some(s)) == PC.Malformed
  {
    RemoveWhitespaceKeeps(s);
    assert s[0..] == s;
  }

  /** `Integer.toString` read back: every `Integer` survives the round trip through its decimal text. */
  lemma ParseIntegerReadsIntToString(n: int)
    requires PC.IntMin <= n <= PC.IntMax
    ensures ParseInteger(IntToString(n)) == Some(n)
  {
    if n >= 0 {
      UnsignedDigitsParse(NatToString(n));
      DecimalValueOfNatToString(n);
    } else {
      var d := NatToString(-n);
      DecimalValueOfNatToString(-n);
      NegatedDigitsParse(d);
    }
  }

  /** Decimal digits with no sign read as their value, when it fits. */
  lemma UnsignedDigitsParse(d: string)
    requires d != [] && AllDigits(d)
    ensures DecimalValue(d) <= PC.IntMax ==> ParseInteger(d) == Some(DecimalValue(d))
    ensures DecimalValue(d) > PC.IntMax ==> ParseInteger(d) == None
  {
    assert IsDigit(d[0]);
    assert HexPrefix(d, 0) == 0 by {
      if |d| >= 2 {
        assert IsDigit(d[1]);
      }
    }
    assert d[0..] == d;
  }

  /** A minus followed by decimal digits reads as the negated value, when it fits. */
  lemma NegatedDigitsParse(d: string)
    requires d != [] && AllDigits(d)
    ensures DecimalValue(d) <= -PC.IntMin ==> ParseInteger("-" + d) == Some(-(DecimalValue(d) as int))
    ensures DecimalValue(d) > -PC.IntMin ==> ParseInteger("-" + d) == None
  {
    var t := "-" + d;
    assert t[0] == '-' && t[1..] == d && t[1] == d[0];
    assert IsDigit(d[0]);
    assert HexPrefix(t, 1) == 0 by {
      if |t| >= 3 {
        assert t[2] == d[1];
        assert IsDigit(d[1]);
      }
    }
  }

  /** Whitespace inserted anywhere in a parameter (`page= 5`, `page=1 0`, `page= `) changes nothing. */
  lemma NumberParamIgnoresWhitespace(a: string, w: char, b: string)
    requires IsJavaWhitespace(w)
    ensures NumberParam(Some(a + [w] + b)) == NumberParam(Some(a + b))
  {
    RemoveWhitespaceDropsInserted(a, w, b);
  }

  /** Hexadecimal through `Integer.decode`: `0x1F` is 31. */
  lemma HexParamExample()
    ensures NumberParam(Some("0x1F")) == PC.Given(31)
  {
    NoWhitespaceExample("0x1F");
    assert HexPrefix("0x1F", 0) == 2;
    HexValueExample("0x1F"[2..]);
  }

  /** The `#` prefix, in either case of hex digit: `#1f` is 31. */
  lemma HashParamExample()
    ensures NumberParam(Some("#1f")) == PC.Given(31)
  {
    NoWhitespaceExample("#1f");
    assert HexPrefix("#1f", 0) == 1;
    HexValueExample("#1f"[1..]);
  }

  lemma HexValueExample(d: string)
    requires d == "1F" || d == "1f"
    ensures AllHexDigits(d) && HexValue(d) == 31
  {
    assert d[..1] == "1" && "1"[..0] == "";
  }

  /** Signs `Integer.valueOf` accepts: `-3` and `+7`. */
  lemma SignedParamExamples()
    ensures NumberParam(Some("-3")) == PC.Given(-3)
    ensures NumberParam(Some("+7")) == PC.Given(7)
  {
    NoWhitespaceExample("-3");
    assert "-3"[1..] == "3" && "3"[..0] == "";
    NoWhitespaceExample("+7");
    assert "+7"[1..] == "7" && "7"[..0] == "";
  }

  /** Only a minus may precede a hex prefix: `+0x1F` does not convert. */
  lemma PlusHexIsMalformed()
    ensures NumberParam(Some("+0x1F")) == PC.Malformed
  {
    NoWhitespaceExample("+0x1F");
    assert HexPrefix("+0x1F", 0) == 0;
    assert "+0x1F"[1..] == "0x1F";
    assert !IsDigit("0x1F"[1]);
  }

  /** Text that is only whitespace counts as missing; a prefix with no digits does not convert. */
  lemma EmptyNumberExamples()
    ensures NumberParam(Some(" ")) == PC.Absent
    ensures NumberParam(Some("\t\t")) == PC.Absent
    ensures NumberParam(Some("0x")) == PC.Malformed
  {
    assert RemoveWhitespace(" ") == [] by {
      assert " "[1..] == [];
    }
    assert RemoveWhitespace("\t\t") == [] by {
      assert "\t\t"[1..] == "\t" && "\t"[1..] == [];
    }
    NoWhitespaceExample("0x");
    assert "0x"[2..] == [];
  }

  /** A literal with no whitespace in it is left as it is. */
  lemma NoWhitespaceExample(s: string)
    requires forall i :: 0 <= i < |s| ==> '#' <= s[i] <= 'z'
    ensures RemoveWhitespace(s) == s
  {
    RemoveWhitespaceKeeps(s);
  }

  /** The parameters of `GET /api/products` carried by a query string; prices are never sent. */
  function RequestOf(ps: PS.SearchParams): PC.ProductsRequest {
    PC.ProductsRequest(
      PS.Get(ps, PS.Search),
      PS.Get(ps, PS.Brand),
      PS.Get(ps, PS.Category),
      PC.Absent,
      PC.Absent,
      PS.Get(ps, PS.SortBy),
      PS.Get(ps, PS.SortDir),
      NumberParam(PS.Get(ps, PS.Page)),
      NumberParam(PS.Get(ps, PS.Size)))
  }

  /** The service query the view means: its trimmed filters, its sort, the first page of 100. */
  function IntendedQuery(searchTerm: string, brandFilter: string, categoryFilter: string, alphabetical: AV.Order, price: AV.Order): SV.SearchQuery {
    var (sortBy, dir) := AV.SortParams(alphabetical, price);
    SV.SearchQuery(
      PS.FilterValue(Some(searchTerm)), PS.FilterValue(Some(brandFilter)), PS.FilterValue(Some(categoryFilter)),
      None, None, Some(sortBy), Some(dir.Text()), Some(0), Some(100))
  }

  /** The sort key the service applies for the view's choice. */
  function IntendedField(alphabetical: AV.Order, price: AV.Order): PO.SortField {
    if alphabetical != AV.Unordered then PO.ByName
    else if price != AV.Unordered then PO.ByPrice
    else PO.ById
  }

  /** The page and size the view sends convert back to the numbers it rendered. */
  lemma NumberTexts()
    ensures NumberParam(Some(IntToString(0))) == PC.Given(0)
    ensures NumberParam(Some(IntToString(100))) == PC.Given(100)
  {
    DecimalValueOfNatToString(0);
    DigitsParam(IntToString(0));
    DecimalValueOfNatToString(100);
    DigitsParam(IntToString(100));
  }

  /**
   * Every sort the filters panel can produce passes the controller's patterns
   * and selects, in the service, the key and direction the view chose.
   */
  lemma ViewSortReachesService(alphabetical: AV.Order, price: AV.Order)
    ensures var (sortBy, dir) := AV.SortParams(alphabetical, price);
      PC.SortByAccepted(sortBy) && PC.SortDirAccepted(dir.Text())
      && PO.ResolveField(SV.Normalize(Some(sortBy))) == IntendedField(alphabetical, price)
      && (PO.ResolveDirection(SV.Normalize(Some(dir.Text()))) == PO.Desc <==> dir == PS.Desc)
  {
    var (sortBy, dir) := AV.SortParams(alphabetical, price);
    LowerIsLower(sortBy);
    LowerIsLower(dir.Text());
    assert Lower(sortBy) == sortBy && Lower(dir.Text()) == dir.Text();
    PC.AcceptedSortByResolves(sortBy);
    PC.AcceptedSortDirResolves(dir.Text());
  }

  /** The request parameters the view means to send. */
  function ViewRequest(searchTerm: string, brandFilter: string, categoryFilter: string, alphabetical: AV.Order, price: AV.Order): PC.ProductsRequest {
    var (sortBy, dir) := AV.SortParams(alphabetical, price);
    PC.ProductsRequest(
      PS.FilterValue(Some(searchTerm)), PS.FilterValue(Some(brandFilter)), PS.FilterValue(Some(categoryFilter)),
      PC.Absent, PC.Absent, Some(sortBy), Some(dir.Text()), PC.Given(0), PC.Given(100))
  }

  /** A filter of the hook's query reads back as its trimmed text, or is missing when blank. */
  lemma FilterReadsBack(q: PS.QueryParams, ps: PS.SearchParams, name: PS.ParamName, filter: string)
    requires PS.Keys(ps) == PS.ExpectedKeys(q) && PS.DistinctKeys(ps) && PS.Carries(q, ps)
    requires || (name == PS.Search && q.search == Some(filter))
             || (name == PS.Brand && q.brand == Some(filter))
             || (name == PS.Category && q.category == Some(filter))
    ensures PS.Get(ps, name) == PS.FilterValue(Some(filter))
  {
    PS.SentValues(q, ps, name);
  }

  /** The query string `fetchProducts` builds for the view's query carries exactly the view's request. */
  lemma QueryStringCarriesViewRequest(searchTerm: string, brandFilter: string, categoryFilter: string,
                                      alphabetical: AV.Order, price: AV.Order, ps: PS.SearchParams)
    requires var (sortBy, dir) := AV.SortParams(alphabetical, price);
      var q := UP.HookQuery(searchTerm, brandFilter, categoryFilter, sortBy, dir);
      PS.Keys(ps) == PS.ExpectedKeys(q) && PS.DistinctKeys(ps) && PS.Carries(q, ps)
    ensures RequestOf(ps) == ViewRequest(searchTerm, brandFilter, categoryFilter, alphabetical, price)
  {
    var (sortBy, dir) := AV.SortParams(alphabetical, price);
    var q := UP.HookQuery(searchTerm, brandFilter, categoryFilter, sortBy, dir);
    var got, want := RequestOf(ps), ViewRequest(searchTerm, brandFilter, categoryFilter, alphabetical, price);
    assert got.search == want.search by { FilterReadsBack(q, ps, PS.Search, searchTerm); }
    assert got.brand == want.brand by { FilterReadsBack(q, ps, PS.Brand, brandFilter); }
    assert got.category == want.category by { FilterReadsBack(q, ps, PS.Category, categoryFilter); }
    assert got.sortBy == want.sortBy by { PS.SentValues(q, ps, PS.SortBy); }
    assert got.sortDir == want.sortDir by { PS.SentValues(q, ps, PS.SortDir); }
    assert got.page == want.page && got.size == want.size by {
      PS.SentValues(q, ps, PS.Page);
      PS.SentValues(q, ps, PS.Size);
      NumberTexts();
    }
  }

  /** The controller accepts the view's request and hands the service the intended query. */
  lemma ViewRequestIsAccepted(catalogue: seq<CP.Product>, searchTerm: string, brandFilter: string,
                              categoryFilter: string, alphabetical: AV.Order, price: AV.Order)
    ensures PC.GetProducts(catalogue, ViewRequest(searchTerm, brandFilter, categoryFilter, alphabetical, price))
      == Ok(SV.SearchProducts(catalogue, IntendedQuery(searchTerm, brandFilter, categoryFilter, alphabetical, price)))
  {
    var req := ViewRequest(searchTerm, brandFilter, categoryFilter, alphabetical, price);
    ViewSortReachesService(alphabetical, price);
    assert PC.FirstMalformed(req).None?;
    assert PC.ServiceQuery(req) == IntendedQuery(searchTerm, brandFilter, categoryFilter, alphabetical, price);
  }

  /**
   * The query string the view sends is never rejected: the controller answers
   * with the service's first page of up to 100 products for exactly the
   * filters and sort the view shows.
   */
  lemma ViewRequestsAreAccepted(catalogue: seq<CP.Product>, searchTerm: string, brandFilter: string,
                                categoryFilter: string, alphabetical: AV.Order, price: AV.Order, ps: PS.SearchParams)
    requires var (sortBy, dir) := AV.SortParams(alphabetical, price);
      var q := UP.HookQuery(searchTerm, brandFilter, categoryFilter, sortBy, dir);
      PS.Keys(ps) == PS.ExpectedKeys(q) && PS.DistinctKeys(ps) && PS.Carries(q, ps)
    ensures var r := PC.GetProducts(catalogue, RequestOf(ps));
      r.Ok? && r.value == SV.SearchProducts(catalogue, IntendedQuery(searchTerm, brandFilter, categoryFilter, alphabetical, price))
      && r.value.page == 0 && r.value.size == 100
  {
    QueryStringCarriesViewRequest(searchTerm, brandFilter, categoryFilter, alphabetical, price, ps);
    ViewRequestIsAccepted(catalogue, searchTerm, brandFilter, categoryFilter, alphabetical, price);
  }
}
