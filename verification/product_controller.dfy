/**
 * `ProductController`: request-parameter defaults, type conversion, bean
 * validation and the min/max price check in front of `searchProducts`, and
 * the not-found rule of the look-up by id. The catalogue argument is what the
 * repository's `findAll` returns.
 */
module ProductController {
  import opened Wrappers
  import opened Text
  import opened CatalogProduct
  import opened ProductOrdering
  import opened ProductService
  import opened ProductRepository
  import opened ExceptionHandler

  /**
   * A numeric query parameter: missing (or empty), a number, or text that does
   * not convert to the parameter's type (for `Integer`, anything outside
   * -2147483648..2147483647 too).
   */
  datatype NumArg = Absent | Given(value: int) | Malformed

  /** `Integer.MIN_VALUE` and `Integer.MAX_VALUE`. */
  const IntMin := -2147483648
  const IntMax := 2147483647

  /**
   * The query string of `GET /api/products`. A missing text parameter is
   * `None`; an empty one is `Some("")`: `sortBy` and `sortDir` then take their
   * default, and the service reads an empty filter as no filter
   * (`BlankFilterIsMissing`).
   */
  datatype ProductsRequest = ProductsRequest(
    search: Option<string>,
    brand: Option<string>,
    category: Option<string>,
    minPrice: NumArg,
    maxPrice: NumArg,
    sortBy: Option<string>,
    sortDir: Option<string>,
    page: NumArg,
    size: NumArg
  )

  const SortByMessage := "sortBy debe ser uno de: name, price, oldPrice, stock, brand, category, id"
  const SortDirMessage := "sortDir debe ser asc o desc"
  const PageMessage := "page debe ser mayor o igual a 0"
  const SizeMinMessage := "size debe ser mayor a 0"
  const SizeMaxMessage := "size no puede ser mayor a 100"
  const PriceRangeMessage := "minPrice no puede ser mayor que maxPrice"
  const NotFoundPrefix := "Producto no encontrado para id: "

  /** The `sortBy` values the pattern accepts, written in lower case. */
  const SortByValues: seq<string> := ["name", "price", "oldprice", "stock", "brand", "category", "id"]

  /** `(?i)name|price|oldPrice|stock|brand|category|id` matched against the whole value. */
  predicate SortByAccepted(s: string) {
    Lower(s) in SortByValues
  }

  /** `(?i)asc|desc` matched against the whole value. */
  predicate SortDirAccepted(s: string) {
    Lower(s) == "asc" || Lower(s) == "desc"
  }

  /** A text parameter with a `defaultValue`: missing or empty takes the default. */
  function TextOrDefault(v: Option<string>, default: string): (r: string)
    ensures v.Some? && v.value != [] ==> r == v.value
    ensures v.None? || v.value == [] ==> r == default
  {
    if v.None? || v.value == [] then default else v.value
  }

  function NumOrDefault(v: NumArg, default: int): int
    requires !v.Malformed?
  {
    if v.Given? then v.value else default
  }

  function NumOrNull(v: NumArg): (r: Option<int>)
    requires !v.Malformed?
    ensures r.Some? <==> v.Given?
  {
    if v.Given? then Some(v.value) else None
  }

  /** The first parameter, in declaration order, whose text does not convert to a number. */
  function FirstMalformed(req: ProductsRequest): (name: Option<string>)
    ensures name.None? <==> !req.minPrice.Malformed? && !req.maxPrice.Malformed?
                            && !req.page.Malformed? && !req.size.Malformed?
  {
    if req.minPrice.Malformed? then Some("minPrice")
    else if req.maxPrice.Malformed? then Some("maxPrice")
    else if req.page.Malformed? then Some("page")
    else if req.size.Malformed? then Some("size")
    else None
  }

  /** The messages of the violated constraints, in parameter order. */
  function Violations(sortBy: string, sortDir: string, page: int, size: int): (v: seq<string>)
    ensures v == [] <==> SortByAccepted(sortBy) && SortDirAccepted(sortDir) && page >= 0 && 1 <= size <= 100
    ensures SortByMessage in v <==> !SortByAccepted(sortBy)
    ensures SortDirMessage in v <==> !SortDirAccepted(sortDir)
    ensures PageMessage in v <==> page < 0
    ensures SizeMinMessage in v <==> size < 1
    ensures SizeMaxMessage in v <==> size > 100
  {
    (if SortByAccepted(sortBy) then [] else [SortByMessage])
    + (if SortDirAccepted(sortDir) then [] else [SortDirMessage])
    + (if page >= 0 then [] else [PageMessage])
    + (if size >= 1 then [] else [SizeMinMessage])
    + (if size <= 100 then [] else [SizeMaxMessage])
  }

  /** The query the controller hands to the service for a request that passed conversion. */
  function ServiceQuery(req: ProductsRequest): SearchQuery
    requires FirstMalformed(req).None?
  {
    SearchQuery(req.search, req.brand, req.category, NumOrNull(req.minPrice), NumOrNull(req.maxPrice),
                Some(TextOrDefault(req.sortBy, "name")), Some(TextOrDefault(req.sortDir, "asc")),
                Some(NumOrDefault(req.page, 0)), Some(NumOrDefault(req.size, 10)))
  }

  /** `getProducts`, together with the conversion and validation Spring runs before it. */
  function GetProducts(catalogue: seq<Product>, req: ProductsRequest): (r: Result<ProductListResponse, ApiException>)
    ensures FirstMalformed(req).Some? ==> r == Err(TypeMismatch(FirstMalformed(req)))
    ensures FirstMalformed(req).None? ==>
              var q := ServiceQuery(req);
              var v := Violations(q.sortBy.value, q.sortDir.value, q.page.value, q.size.value);
              && (v != [] ==> r == Err(ConstraintViolation(v)))
              && ((v == [] && q.minPrice.Some? && q.maxPrice.Some? && q.minPrice.value > q.maxPrice.value)
                    ==> r == Err(IllegalArgument(PriceRangeMessage)))
              && (r.Ok? <==> v == [] && !(q.minPrice.Some? && q.maxPrice.Some? && q.minPrice.value > q.maxPrice.value))
              && (r.Ok? ==> r.value == SearchProducts(catalogue, q))
  {
    match FirstMalformed(req)
    case Some(name) => Err(TypeMismatch(Some(name)))
    case None =>
      var q := ServiceQuery(req);
      var v := Violations(q.sortBy.value, q.sortDir.value, q.page.value, q.size.value);
      if v != [] then Err(ConstraintViolation(v))
      else if q.minPrice.Some? && q.maxPrice.Some? && q.minPrice.value > q.maxPrice.value then
        Err(IllegalArgument(PriceRangeMessage))
      else Ok(SearchProducts(catalogue, q))
  }

  /** `getProductById`: the first product with that id, or a not-found error naming the id. */
  function GetProductById(catalogue: seq<Product>, id: string): (r: Result<Product, ApiException>)
    ensures r.Ok? ==> r.value in catalogue && r.value.id == Some(id)
    ensures r.Ok? ==> r == Ok(FirstWithId(catalogue, Some(id)).value)
    ensures r.Err? <==> forall p :: p in catalogue ==> p.id != Some(id)
    ensures r.Err? ==> r.error == ResourceNotFound(NotFoundPrefix + id)
  {
    match FirstWithId(catalogue, Some(id))
    case Some(p) => Ok(p)
    case None => Err(ResourceNotFound(NotFoundPrefix + id))
  }

  /** A blank `search`, `brand` or `category` (such as `search=`) is answered as if it were missing. */
  lemma BlankFilterIsMissing(catalogue: seq<Product>, req: ProductsRequest, s: string)
    requires IsBlank(s)
    ensures GetProducts(catalogue, req.(search := Some(s))) == GetProducts(catalogue, req.(search := None))
    ensures GetProducts(catalogue, req.(brand := Some(s))) == GetProducts(catalogue, req.(brand := None))
    ensures GetProducts(catalogue, req.(category := Some(s))) == GetProducts(catalogue, req.(category := None))
  {
    if FirstMalformed(req).None? {
      var q := ServiceQuery(req);
      assert Normalize(Some(s)) == None;
      FilterSameNormalForm(catalogue, q.(search := Some(s)), q.(search := None));
      FilterSameNormalForm(catalogue, q.(brand := Some(s)), q.(brand := None));
      FilterSameNormalForm(catalogue, q.(category := Some(s)), q.(category := None));
    }
  }

  /** A request the controller accepts is already inside the service's clamping bounds. */
  lemma AcceptedRequestNeedsNoClamping(catalogue: seq<Product>, req: ProductsRequest)
    requires GetProducts(catalogue, req).Ok?
    ensures var q := ServiceQuery(req);
            SafePage(q.page) == q.page.value && SafeSize(q.size) == q.size.value
  {
  }

  /** Lower-casing does not move spaces, so a value whose lower case has none at the ends has none either. */
  lemma TrimmedIfLowerTrimmed(s: string)
    requires IsTrimmed(Lower(s))
    ensures IsTrimmed(s)
  {
  }

  /** The field a lower-case `sortBy` name stands for. */
  function FieldNamed(name: string): SortField {
    if name == "price" then ByPrice
    else if name == "oldprice" then ByOldPrice
    else if name == "stock" then ByStock
    else if name == "brand" then ByBrand
    else if name == "category" then ByCategory
    else if name == "id" then ById
    else ByName
  }

  /**
   * Every `sortBy` the pattern accepts, in any letter case, selects the key it
   * names in the service; the name fallback is reached only by "name".
   */
  lemma AcceptedSortByResolves(s: string)
    requires SortByAccepted(s)
    ensures ResolveField(Normalize(Some(s))) == FieldNamed(Lower(s))
  {
    assert IsTrimmed(Lower(s));
    TrimmedIfLowerTrimmed(s);
    TrimOfTrimmed(s);
  }

  /** Every accepted `sortDir` selects the direction it names. */
  lemma AcceptedSortDirResolves(s: string)
    requires SortDirAccepted(s)
    ensures ResolveDirection(Normalize(Some(s))) == (if Lower(s) == "desc" then Desc else Asc)
  {
    assert IsTrimmed(Lower(s));
    TrimmedIfLowerTrimmed(s);
    TrimOfTrimmed(s);
  }

  /** A reversed price range is answered with 400 and the range message, and the service is not asked. */
  lemma ReversedPriceRangeIsBadRequest(catalogue: seq<Product>, req: ProductsRequest)
    requires FirstMalformed(req).None?
    requires Violations(ServiceQuery(req).sortBy.value, ServiceQuery(req).sortDir.value,
                        ServiceQuery(req).page.value, ServiceQuery(req).size.value) == []
    requires req.minPrice.Given? && req.maxPrice.Given? && req.minPrice.value > req.maxPrice.value
    ensures GetProducts(catalogue, req).Err?
    ensures var e := Handle(GetProducts(catalogue, req).error);
            e.httpStatus == 400 && e.body.error == "Bad Request" && e.body.message == PriceRangeMessage
  {
  }

  /** An unknown id is answered with 404 and a message that ends with the id. */
  lemma UnknownIdIsNotFound(catalogue: seq<Product>, id: string)
    requires forall p :: p in catalogue ==> p.id != Some(id)
    ensures GetProductById(catalogue, id).Err?
    ensures var e := Handle(GetProductById(catalogue, id).error);
            var m := e.body.message;
            && e.httpStatus == 404 && e.body.error == "Not Found"
            && |m| >= |id| && m[|m| - |id|..] == id
  {
  }
}
