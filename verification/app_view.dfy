/**
 * The values `App.tsx` derives on every render: the sort it asks the backend
 * for, the split of the list into pages of nine, the cart updater and the
 * cart totals, and the carousel steps.
 */
module AppView {
  import opened Wrappers
  import opened ProductTypes
  import opened ProductsService

  /** One sort dimension of the filters panel: `'none' | 'asc' | 'desc'`. */
  datatype Order = Unordered | Ascending | Descending {
    function Direction(): SortDirection
      requires !Unordered?
    {
      if Ascending? then Asc else Desc
    }
  }

  /** `sortParams`: the alphabetical order wins, then the price order, else the id order. */
  function SortParams(alphabetical: Order, price: Order): (r: (string, SortDirection))
    ensures r.0 == "name" <==> alphabetical != Unordered
    ensures r.0 == "price" <==> alphabetical == Unordered && price != Unordered
    ensures r.0 == "id" <==> alphabetical == Unordered && price == Unordered
    ensures alphabetical != Unordered ==> r.1 == alphabetical.Direction()
    ensures alphabetical == Unordered && price != Unordered ==> r.1 == price.Direction()
    ensures alphabetical == Unordered && price == Unordered ==> r.1 == Asc
  {
    if alphabetical != Unordered then ("name", alphabetical.Direction())
    else if price != Unordered then ("price", price.Direction())
    else ("id", Asc)
  }

  /** `ITEMS_PER_PAGE`. */
  const ItemsPerPage: nat := 9

  /** `Math.max(1, Math.ceil(n / ITEMS_PER_PAGE))`. */
  function PageCount(n: nat): (k: nat)
    ensures k >= 1
    ensures n <= k * ItemsPerPage
    ensures n > 0 ==> (k - 1) * ItemsPerPage < n
    ensures n == 0 ==> k == 1
  {
    if n == 0 then 1 else (n + ItemsPerPage - 1) / ItemsPerPage
  }

  function Min(a: int, b: int): int {
    if a <= b then a else b
  }

  /** `products.slice(i * 9, (i + 1) * 9)`: `slice` clamps both ends to the length. */
  function PageSlice(products: seq<Product>, i: nat): (page: seq<Product>)
    ensures |page| <= ItemsPerPage
  {
    products[Min(i * ItemsPerPage, |products|)..Min((i + 1) * ItemsPerPage, |products|)]
  }

  /** `productPages`. */
  function ProductPages(products: seq<Product>): (pages: seq<seq<Product>>)
    ensures |pages| == PageCount(|products|)
    ensures forall i :: 0 <= i < |pages| ==> pages[i] == PageSlice(products, i)
  {
    seq(PageCount(|products|), i requires 0 <= i => PageSlice(products, i))
  }

  function Concat(pages: seq<seq<Product>>): seq<Product> {
    if pages == [] then [] else Concat(pages[..|pages| - 1]) + pages[|pages| - 1]
  }

  /** The first `k` pages hold exactly the first `min(9k, n)` products. */
  lemma {:induction false} PagesPrefix(products: seq<Product>, k: nat)
    requires k <= PageCount(|products|)
    ensures Concat(ProductPages(products)[..k]) == products[..Min(k * ItemsPerPage, |products|)]
  {
    var pages := ProductPages(products);
    if k > 0 {
      PagesPrefix(products, k - 1);
      assert pages[..k][..k - 1] == pages[..k - 1];
      assert pages[..k][k - 1] == PageSlice(products, k - 1);
    }
  }

  /**
   * The pages hold the whole list, in order and without repetition; every page
   * but the last is full, and the last is empty only when the list is.
   */
  lemma PagesPartitionList(products: seq<Product>)
    ensures Concat(ProductPages(products)) == products
    ensures forall i :: 0 <= i < |ProductPages(products)| - 1 ==> |ProductPages(products)[i]| == ItemsPerPage
    ensures (ProductPages(products)[|ProductPages(products)| - 1] == []) <==> products == []
  {
    var pages := ProductPages(products);
    PagesPrefix(products, |pages|);
    assert pages[..|pages|] == pages;
  }

  /** The cart line of a product id: the first one, as `current.find` returns it. */
  function LineOf(items: seq<CartItem>, id: string): (r: Option<nat>)
    ensures r.Some? ==> r.value < |items| && items[r.value].product.id == id
    ensures r.Some? ==> forall j :: 0 <= j < r.value ==> items[j].product.id != id
    ensures r.None? <==> forall j :: 0 <= j < |items| ==> items[j].product.id != id
  {
    if items == [] then None
    else if items[0].product.id == id then Some(0)
    else match LineOf(items[1..], id)
      case None => None
      case Some(k) => Some(k + 1)
  }

  /** `current.map(...)`: every line of that product id gets one more unit. */
  function Bump(items: seq<CartItem>, id: string): (r: seq<CartItem>)
    ensures |r| == |items|
    ensures forall i :: 0 <= i < |items| && items[i].product.id == id ==>
      r[i] == CartItem(items[i].product, items[i].quantity + 1)
    ensures forall i :: 0 <= i < |items| && items[i].product.id != id ==> r[i] == items[i]
  {
    if items == [] then []
    else
      var last := items[|items| - 1];
      Bump(items[..|items| - 1], id)
        + [if last.product.id == id then CartItem(last.product, last.quantity + 1) else last]
  }

  /** The updater `addToCart` passes to `setCartItems`. */
  function AddToCart(current: seq<CartItem>, product: Product): (r: seq<CartItem>)
    ensures |r| == |current| + (if LineOf(current, product.id).None? then 1 else 0)
    ensures r != []
  {
    if LineOf(current, product.id).None? then current + [CartItem(product, 1)]
    else Bump(current, product.id)
  }

  /** `totalCartAmount`: the sum of price times quantity, folded from the left. */
  function TotalCartAmount(items: seq<CartItem>): int {
    if items == [] then 0
    else
      var last := items[|items| - 1];
      TotalCartAmount(items[..|items| - 1]) + last.product.price * last.quantity
  }

  /** `totalCartItems`: the sum of the quantities. */
  function TotalCartItems(items: seq<CartItem>): int {
    if items == [] then 0 else TotalCartItems(items[..|items| - 1]) + items[|items| - 1].quantity
  }

  /** Units of one product id in the cart. */
  function QuantityOf(items: seq<CartItem>, id: string): int {
    if items == [] then 0
    else
      var last := items[|items| - 1];
      QuantityOf(items[..|items| - 1], id) + (if last.product.id == id then last.quantity else 0)
  }

  /** One line per product id, each with at least one unit. */
  predicate WellFormedCart(items: seq<CartItem>) {
    (forall i :: 0 <= i < |items| ==> items[i].quantity >= 1)
    && (forall i, j :: 0 <= i < j < |items| ==> items[i].product.id != items[j].product.id)
  }

  /** Adding keeps one line per product id and at least one unit per line. */
  lemma AddToCartWellFormed(current: seq<CartItem>, product: Product)
    requires WellFormedCart(current)
    ensures WellFormedCart(AddToCart(current, product))
  {
  }

  /**
   * Adding a product not yet in the cart appends a line with one unit; adding
   * one already there adds a unit to its line, which keeps the product value
   * it was first added with; no other line changes.
   */
  lemma AddToCartLines(current: seq<CartItem>, product: Product)
    ensures LineOf(current, product.id).None? ==> AddToCart(current, product) == current + [CartItem(product, 1)]
    ensures LineOf(current, product.id).Some? ==>
      var k := LineOf(current, product.id).value;
      var r := AddToCart(current, product);
      |r| == |current|
      && r[k] == CartItem(current[k].product, current[k].quantity + 1)
      && (WellFormedCart(current) ==> forall j :: 0 <= j < |current| && j != k ==> r[j] == current[j])
  {
  }

  /** The price `addToCart` charges: that of the product already in the cart, if any. */
  function ChargedPrice(current: seq<CartItem>, product: Product): int {
    match LineOf(current, product.id)
    case None => product.price
    case Some(k) => current[k].product.price
  }

  lemma {:induction false} BumpTotals(items: seq<CartItem>, id: string)
    ensures TotalCartItems(Bump(items, id)) == TotalCartItems(items) + CountOf(items, id)
    ensures QuantityOf(Bump(items, id), id) == QuantityOf(items, id) + CountOf(items, id)
    ensures forall other :: other != id ==> QuantityOf(Bump(items, id), other) == QuantityOf(items, other)
  {
    if items != [] {
      var init := items[..|items| - 1];
      var r := Bump(items, id);
      BumpTotals(init, id);
      assert r[..|r| - 1] == Bump(init, id);
    }
  }

  /** Sum of the prices of the lines of one product id. */
  function PriceSum(items: seq<CartItem>, id: string): int {
    if items == [] then 0
    else
      var last := items[|items| - 1];
      PriceSum(items[..|items| - 1], id) + (if last.product.id == id then last.product.price else 0)
  }

  lemma {:induction false} BumpAmount(items: seq<CartItem>, id: string)
    ensures TotalCartAmount(Bump(items, id)) == TotalCartAmount(items) + PriceSum(items, id)
  {
    if items != [] {
      var init := items[..|items| - 1];
      var last := items[|items| - 1];
      var r := Bump(items, id);
      BumpAmount(init, id);
      assert r[..|r| - 1] == Bump(init, id);
      if last.product.id == id {
        assert r[|r| - 1] == CartItem(last.product, last.quantity + 1);
        assert last.product.price * (last.quantity + 1) == last.product.price * last.quantity + last.product.price;
      } else {
        assert r[|r| - 1] == last;
      }
    }
  }

  /** With one line per product id, the price sum of an id is the price on its line. */
  lemma {:induction false} PriceSumUnique(items: seq<CartItem>, id: string)
    requires forall i, j :: 0 <= i < j < |items| ==> items[i].product.id != items[j].product.id
    ensures LineOf(items, id).None? ==> PriceSum(items, id) == 0
    ensures LineOf(items, id).Some? ==> PriceSum(items, id) == items[LineOf(items, id).value].product.price
  {
    if items != [] {
      var init := items[..|items| - 1];
      var last := items[|items| - 1];
      PriceSumUnique(init, id);
      if last.product.id == id {
        assert LineOf(init, id).None? by {
          forall j | 0 <= j < |init| ensures init[j].product.id != id {
            assert items[j].product.id != items[|items| - 1].product.id;
          }
        }
        assert LineOf(items, id) == Some(|items| - 1);
      } else if LineOf(init, id).Some? {
        assert LineOf(items, id) == LineOf(init, id);
      } else {
        assert LineOf(items, id).None?;
      }
    }
  }

  /** Lines of that product id. */
  function CountOf(items: seq<CartItem>, id: string): (c: nat)
    ensures c == 0 <==> forall j :: 0 <= j < |items| ==> items[j].product.id != id
  {
    if items == [] then 0
    else CountOf(items[..|items| - 1], id) + (if items[|items| - 1].product.id == id then 1 else 0)
  }

  lemma {:induction false} CountOfUnique(items: seq<CartItem>, id: string)
    requires forall i, j :: 0 <= i < j < |items| ==> items[i].product.id != items[j].product.id
    ensures CountOf(items, id) <= 1
  {
    if items != [] {
      var init := items[..|items| - 1];
      CountOfUnique(init, id);
      if items[|items| - 1].product.id == id {
        forall j | 0 <= j < |init| ensures init[j].product.id != id {
          assert items[j].product.id != items[|items| - 1].product.id;
        }
      }
    }
  }

  /**
   * Every `addToCart` adds exactly one unit: one more item in the badge, one
   * more unit of that product, no change for the others, and the amount grows
   * by the price charged for it.
   */
  lemma AddToCartTotals(current: seq<CartItem>, product: Product)
    requires WellFormedCart(current)
    ensures var r := AddToCart(current, product);
      TotalCartItems(r) == TotalCartItems(current) + 1
      && QuantityOf(r, product.id) == QuantityOf(current, product.id) + 1
      && (forall other :: other != product.id ==> QuantityOf(r, other) == QuantityOf(current, other))
      && TotalCartAmount(r) == TotalCartAmount(current) + ChargedPrice(current, product)
  {
    var r := AddToCart(current, product);
    if LineOf(current, product.id).None? {
      assert r[..|r| - 1] == current;
    } else {
      BumpTotals(current, product.id);
      BumpAmount(current, product.id);
      PriceSumUnique(current, product.id);
      CountOfUnique(current, product.id);
    }
  }

  /** Adding the same product twice to a cart without it leaves one line with two units. */
  lemma AddTwice(current: seq<CartItem>, product: Product)
    requires LineOf(current, product.id).None?
    ensures var r := AddToCart(AddToCart(current, product), product);
      |r| == |current| + 1 && r[|current|] == CartItem(product, 2) && r[..|current|] == current
  {
    var once := current + [CartItem(product, 1)];
    assert AddToCart(current, product) == once;
    assert once[|current|].product.id == product.id;
    assert LineOf(once, product.id).Some?;
    var r := Bump(once, product.id);
    assert AddToCart(once, product) == r;
    assert r[|current|] == CartItem(product, 2);
    assert forall j :: 0 <= j < |current| ==> r[j] == current[j] by {
      forall j | 0 <= j < |current| ensures r[j] == current[j] {
        assert once[j] == current[j];
        assert current[j].product.id != product.id;
      }
    }
    assert r[..|current|] == current;
  }

  /** `goNextSlide`: `(prev + 1) % len`. */
  function NextSlide(index: int, len: int): (r: int)
    requires 0 <= index < len
    ensures 0 <= r < len
  {
    (index + 1) % len
  }

  /** `goPrevSlide`: `(prev - 1 + len) % len`. */
  function PrevSlide(index: int, len: int): (r: int)
    requires 0 <= index < len
    ensures 0 <= r < len
  {
    (index - 1 + len) % len
  }

  /**
   * The two carousel steps undo each other, the last image is followed by the
   * first, and the first is preceded by the last.
   */
  lemma SlidesAreInverse(index: int, len: int)
    requires 0 <= index < len
    ensures PrevSlide(NextSlide(index, len), len) == index
    ensures NextSlide(PrevSlide(index, len), len) == index
    ensures index == len - 1 ==> NextSlide(index, len) == 0
    ensures index == 0 ==> PrevSlide(index, len) == len - 1
  {
    WrapOnce(index + 1, len);
    WrapOnce(index - 1 + len, len);
    WrapOnce(NextSlide(index, len) - 1 + len, len);
    WrapOnce(PrevSlide(index, len) + 1, len);
  }

  /** Below twice the modulus, `%` subtracts it at most once. */
  lemma WrapOnce(x: int, len: int)
    requires 0 <= x < 2 * len
    ensures x % len == if x < len then x else x - len
  {
    var q, m := x / len, x % len;
    assert x == q * len + m && 0 <= m < len;
  }
}
