/**
 * `useProducts.ts`: how an API record becomes a view product (bundled
 * fallback image, two detail images), and the hook that reloads the list
 * whenever its query changes, where only the newest load may commit.
 */
module UseProducts {
  import opened Wrappers
  import opened Text
  import opened ProductTypes
  import opened ProductsService

  /** The two bundled detail images every product shows after its main image. */
  const DetailImages: seq<string> := ["/mock/real/detail-01.jpg", "/mock/real/detail-02.jpg"]

  /** How many bundled main images there are: product-01 … product-18. */
  const BundledMainImages: nat := 18

  const FallbackPathPrefix: string := "/mock/real/product-"
  const FallbackPathSuffix: string := ".jpg"

  /** The message shown when the thrown value is not an `Error`. */
  const LoadErrorMessage: string := "Error cargando productos"

  /** `id.replace(/\D/g, '')`: the ASCII digits of the id, in order. */
  function DigitsOf(s: string): (d: string)
    ensures |d| <= |s|
    ensures AllDigits(d)
    ensures AllDigits(s) ==> d == s
    ensures (forall i :: 0 <= i < |s| ==> !IsDigit(s[i])) ==> d == []
  {
    if s == [] then []
    else if IsDigit(s[0]) then [s[0]] + DigitsOf(s[1..])
    else DigitsOf(s[1..])
  }

  /** The number of the bundled image for an id: its digits, wrapped into 1..18; 1 without digits. */
  function FallbackNumber(id: string): (k: nat)
    ensures 1 <= k <= BundledMainImages
  {
    WrapImageNumber(DecimalValue(DigitsOf(id)))
  }

  /** A positive number wrapped into 1..18; 1 for zero. */
  function WrapImageNumber(numeric: nat): (k: nat)
    ensures 1 <= k <= BundledMainImages
  {
    if numeric > 0 then (numeric - 1) % BundledMainImages + 1 else 1
  }

  lemma WrapImageNumberPeriodic(v: nat)
    requires v > 0
    ensures WrapImageNumber(v + BundledMainImages) == WrapImageNumber(v)
  {
    var m := v - 1;
    assert (m + BundledMainImages) % BundledMainImages == m % BundledMainImages;
  }

  /** `String(k).padStart(2, '0')`. */
  function PadTwo(s: string): (r: string)
    ensures |r| == if |s| >= 2 then |s| else 2
  {
    if |s| >= 2 then s else seq(2 - |s|, _ => '0') + s
  }

  /** `buildFallbackMain`: the bundled main image chosen by the digits of the id. */
  function BuildFallbackMain(id: string): string {
    FallbackPathPrefix + PadTwo(NatToString(FallbackNumber(id))) + FallbackPathSuffix
  }

  /**
   * The fallback is always one of the bundled images product-01 … product-18:
   * two digits between the fixed prefix and suffix, naming a number in 1..18.
   */
  lemma FallbackIsBundledImage(id: string)
    ensures var r := BuildFallbackMain(id);
      |r| == |FallbackPathPrefix| + 2 + |FallbackPathSuffix|
      && r[..|FallbackPathPrefix|] == FallbackPathPrefix
      && r[|FallbackPathPrefix| + 2..] == FallbackPathSuffix
      && AllDigits(r[|FallbackPathPrefix|..|FallbackPathPrefix| + 2])
      && DecimalValue(r[|FallbackPathPrefix|..|FallbackPathPrefix| + 2]) == FallbackNumber(id)
  {
    var k := FallbackNumber(id);
    var digits := NatToString(k);
    DecimalValueOfNatToString(k);
    var two := PadTwo(digits);
    if k < 10 {
      assert two == "0" + digits;
      assert two[..1] == "0";
      assert DecimalValue(two) == DecimalValue(digits);
    } else {
      DecimalValueOfNatToString(k / 10);
      assert |digits| == 2;
    }
    var r := BuildFallbackMain(id);
    assert r == FallbackPathPrefix + two + FallbackPathSuffix;
    assert r[|FallbackPathPrefix|..|FallbackPathPrefix| + 2] == two;
  }

  /** Ids whose digits read 1 … 18 get the bundled image with their own number. */
  lemma FallbackNumberSmallIds(id: string)
    requires 1 <= DecimalValue(DigitsOf(id)) <= BundledMainImages
    ensures FallbackNumber(id) == DecimalValue(DigitsOf(id))
  {
  }

  /** Ids whose numbers differ by 18 share their bundled image. */
  lemma FallbackNumberPeriodic(a: string, b: string)
    requires DecimalValue(DigitsOf(a)) > 0
    requires DecimalValue(DigitsOf(b)) == DecimalValue(DigitsOf(a)) + BundledMainImages
    ensures FallbackNumber(a) == FallbackNumber(b)
  {
    WrapImageNumberPeriodic(DecimalValue(DigitsOf(a)));
  }

  /** `item.imageUrl && item.imageUrl.trim()`: a present URL with some non-space text. */
  predicate HasImageUrl(item: ApiProduct) {
    item.imageUrl.Some? && !IsBlank(item.imageUrl.value)
  }

  /** `mapApiProduct`. */
  function MapApiProduct(item: ApiProduct): (p: Product)
    ensures p.id == item.id && p.name == item.name
    ensures p.price == item.price.GetOr(0)
    ensures p.brand == item.brand && p.category == item.category
    ensures |p.images| == 3
    ensures p.images[0].src == if HasImageUrl(item) then item.imageUrl.value else BuildFallbackMain(item.id)
    ensures p.images[0].fallbackSrc == Some(BuildFallbackMain(item.id))
    ensures p.images[1].src == DetailImages[0] && p.images[1].fallbackSrc.None?
    ensures p.images[2].src == DetailImages[1] && p.images[2].fallbackSrc.None?
  {
    var fallbackMain := BuildFallbackMain(item.id);
    var mainSrc := if HasImageUrl(item) then item.imageUrl.value else fallbackMain;
    Product(
      item.id,
      item.name,
      item.price.GetOr(0),
      item.brand,
      item.category,
      [
        ProductImage(item.id + "-main", mainSrc, "Imagen principal de " + item.name, Some(fallbackMain)),
        ProductImage(item.id + "-detail-1", DetailImages[0], "Detalle de " + item.name, None),
        ProductImage(item.id + "-detail-2", DetailImages[1], "Vista alternativa de " + item.name, None)
      ]
    )
  }

  /** The suffix that `mapApiProduct` appends to the product id for image `i`. */
  function ImageSuffix(i: nat): string
    requires i < 3
  {
    if i == 0 then "-main" else if i == 1 then "-detail-1" else "-detail-2"
  }

  lemma ImageIdShape(item: ApiProduct, i: nat)
    requires i < 3
    ensures MapApiProduct(item).images[i].id == item.id + ImageSuffix(i)
  {
  }

  /**
   * Image ids never collide across a mapped catalogue: two images with the
   * same id are the same image of products with the same id (the suffixes end
   * in different characters, and equal suffixes leave equal product ids).
   */
  lemma ImageIdsUnique(a: ApiProduct, b: ApiProduct, i: nat, j: nat)
    requires i < 3 && j < 3
    requires MapApiProduct(a).images[i].id == MapApiProduct(b).images[j].id
    ensures i == j && a.id == b.id
  {
    ImageIdShape(a, i);
    ImageIdShape(b, j);
    var x, y := a.id + ImageSuffix(i), b.id + ImageSuffix(j);
    assert x == y;
    assert x[|x| - 1] == ImageSuffix(i)[|ImageSuffix(i)| - 1];
    assert y[|y| - 1] == ImageSuffix(j)[|ImageSuffix(j)| - 1];
    assert i == j;
    assert a.id == x[..|a.id|];
    assert |a.id| == |b.id|;
    assert b.id == y[..|b.id|];
  }

  /** `Array.isArray(payload.items) ? payload.items : []`, mapped in order. */
  function MapItems(payload: ApiProductsResponse): (ps: seq<Product>)
    ensures payload.items.None? ==> ps == []
    ensures payload.items.Some? ==> |ps| == |payload.items.value|
    ensures payload.items.Some? ==> forall i :: 0 <= i < |ps| ==> ps[i] == MapApiProduct(payload.items.value[i])
  {
    match payload.items
    case None => []
    case Some(items) => seq(|items|, i requires 0 <= i < |items| => MapApiProduct(items[i]))
  }

  /** The message stored for a failed load: an `Error`'s own message, or the generic one. */
  function ErrorMessage(thrown: Thrown): (m: string)
    ensures thrown.ErrorValue? ==> m == thrown.message
    ensures thrown.OtherValue? ==> m == LoadErrorMessage
  {
    match thrown
    case ErrorValue(message) => message
    case OtherValue => LoadErrorMessage
  }

  /** The memoised query of the hook: first page of 100, the view's sort and filters. */
  function HookQuery(searchTerm: string, brandFilter: string, categoryFilter: string, sortBy: string, sortDir: SortDirection): (q: QueryParams)
    ensures q.page == Some(0) && q.size == Some(100)
    ensures q.sortBy == Some(sortBy) && q.sortDir == Some(sortDir)
    ensures q.search == Some(searchTerm) && q.brand == Some(brandFilter) && q.category == Some(categoryFilter)
  {
    QueryParams(Some(0), Some(100), Some(sortBy), Some(sortDir), Some(searchTerm), Some(brandFilter), Some(categoryFilter))
  }

  /** With blank filters the hook asks only for the first 100 products in the chosen order. */
  lemma BlankFiltersAreNotSent(searchTerm: string, brandFilter: string, categoryFilter: string, sortBy: string, sortDir: SortDirection)
    requires IsBlank(searchTerm) && IsBlank(brandFilter) && IsBlank(categoryFilter)
    ensures var q := HookQuery(searchTerm, brandFilter, categoryFilter, sortBy, sortDir);
      ExpectedKeys(q) == [Page, Size, SortBy, SortDir]
      && ValueFor(q, Page) == "0" && ValueFor(q, Size) == "100"
      && ValueFor(q, SortBy) == sortBy && ValueFor(q, SortDir) == sortDir.Text()
  {
    assert NatToString(100) == NatToString(10) + [DigitChar(0)];
  }

  /**
   * The state of `useProducts`. Each run of the effect is a load numbered by
   * `loadsStarted`; `active` is the load whose effect has not been cleaned up
   * (its `isCancelled` is still false), `settled` tells whether that load has
   * already finished.
   */
  class ProductsHook {
    var products: seq<Product>
    var isLoadingProducts: bool
    var productsError: Option<string>
    var loadsStarted: nat
    var active: Option<nat>
    var settled: bool

    predicate Valid()
      reads this
    {
      (active.Some? ==> active.value == loadsStarted)
      && (active.Some? ==> (isLoadingProducts <==> !settled))
      && (active.Some? && !settled ==> productsError.None?)
      && (productsError.Some? ==> products == [])
    }

    /** The first render: no products, loading, no error, no load started yet. */
    constructor()
      ensures Valid()
      ensures products == [] && isLoadingProducts && productsError.None?
      ensures loadsStarted == 0 && active.None? && !settled
    {
      products := [];
      isLoadingProducts := true;
      productsError := None;
      loadsStarted := 0;
      active := None;
      settled := false;
    }

    /**
     * The effect for a new `query`: the previous load is cancelled, the new one
     * marks the list as loading, clears the error and sends its request.
     */
    method StartLoad(query: QueryParams) returns (ticket: nat, sent: SearchParams)
      requires Valid()
      modifies this
      ensures Valid()
      ensures ticket == loadsStarted == old(loadsStarted) + 1
      ensures active == Some(ticket) && !settled
      ensures isLoadingProducts && productsError.None? && products == old(products)
      ensures Keys(sent) == ExpectedKeys(query) && DistinctKeys(sent) && Carries(query, sent)
    {
      loadsStarted := loadsStarted + 1;
      ticket := loadsStarted;
      active := Some(ticket);
      settled := false;
      isLoadingProducts := true;
      productsError := None;
      sent := BuildSearchParams(query);
    }

    /** The cleanup on unmount: the running load is cancelled. */
    method Unmount()
      requires Valid()
      modifies this
      ensures Valid()
      ensures active.None?
      ensures products == old(products) && isLoadingProducts == old(isLoadingProducts)
      ensures productsError == old(productsError) && loadsStarted == old(loadsStarted) && settled == old(settled)
    {
      active := None;
    }

    /**
     * Load `ticket` finishes with the HTTP exchange `outcome`. A cancelled
     * load changes nothing; the active one stores the mapped items, or the
     * error message with an empty list, and stops loading.
     */
    method Settle(ticket: nat, outcome: HttpOutcome)
      requires Valid()
      modifies this
      ensures Valid()
      ensures loadsStarted == old(loadsStarted) && active == old(active)
      ensures !(old(active) == Some(ticket) && !old(settled)) ==>
        products == old(products) && isLoadingProducts == old(isLoadingProducts)
        && productsError == old(productsError) && settled == old(settled)
      ensures old(active) == Some(ticket) && !old(settled) ==>
        settled && !isLoadingProducts
        && match FetchResult(outcome)
           case Ok(payload) => products == MapItems(payload) && productsError.None?
           case Err(thrown) => products == [] && productsError == Some(ErrorMessage(thrown))
    {
      if active == Some(ticket) && !settled {
        var result := FetchResult(outcome);
        match result {
          case Ok(payload) =>
            products := MapItems(payload);
          case Err(thrown) =>
            productsError := Some(ErrorMessage(thrown));
            products := [];
        }
        isLoadingProducts := false;
        settled := true;
      }
    }
  }

  /**
   * The list shows the answer to the newest query even when the answer to an
   * older one arrives last.
   */
  method NewestQueryWins(older: QueryParams, newer: QueryParams, olderOutcome: HttpOutcome, newerOutcome: HttpOutcome)
    returns (hook: ProductsHook)
    ensures hook.Valid() && !hook.isLoadingProducts
    ensures FetchResult(newerOutcome).Ok? ==>
      hook.products == MapItems(FetchResult(newerOutcome).value) && hook.productsError.None?
    ensures FetchResult(newerOutcome).Err? ==>
      hook.products == [] && hook.productsError == Some(ErrorMessage(FetchResult(newerOutcome).error))
  {
    hook := new ProductsHook();
    var first, _ := hook.StartLoad(older);
    var second, _ := hook.StartLoad(newer);
    hook.Settle(second, newerOutcome);
    hook.Settle(first, olderOutcome);
  }
}
