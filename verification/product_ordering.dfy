/**
 * The comparator chosen by `resolveComparator` and the stable sort that
 * `Stream.sorted` performs with it.
 */
module ProductOrdering {
  import opened Wrappers
  import opened Text
  import opened CatalogProduct

  /** The sort keys the service recognises. */
  datatype SortField = ByName | ByPrice | ByOldPrice | ByStock | ByBrand | ByCategory | ById

  datatype Direction = Asc | Desc

  /** `safeLower`: a missing string compares as the empty string. */
  function SafeLower(s: Option<string>): (r: string)
    ensures IsLower(r)
    ensures s.None? ==> r == []
    ensures s.Some? ==> |r| == |s.value| && (IsLower(s.value) ==> r == s.value)
  {
    LowerIsLower(if s.Some? then s.value else []);
    if s.Some? then Lower(s.value) else []
  }

  /**
   * The key selected by an already normalised (trimmed, lower-cased) `sortBy`;
   * anything unrecognised, including no value, sorts by name.
   */
  function ResolveField(sortBy: Option<string>): (f: SortField)
    ensures sortBy == Some("price") <==> f == ByPrice
    ensures sortBy == Some("oldprice") <==> f == ByOldPrice
    ensures sortBy == Some("stock") <==> f == ByStock
    ensures sortBy == Some("brand") <==> f == ByBrand
    ensures sortBy == Some("category") <==> f == ByCategory
    ensures sortBy == Some("id") <==> f == ById
  {
    match sortBy
    case Some(s) =>
      if s == "price" then ByPrice
      else if s == "oldprice" then ByOldPrice
      else if s == "stock" then ByStock
      else if s == "brand" then ByBrand
      else if s == "category" then ByCategory
      else if s == "id" then ById
      else ByName
    case None => ByName
  }

  /** Only a normalised `desc` reverses the order. */
  function ResolveDirection(sortDir: Option<string>): (d: Direction)
    ensures d == Desc <==> sortDir == Some("desc")
  {
    if sortDir == Some("desc") then Desc else Asc
  }

  /** The sign of `String.compareTo`: lexicographic by character, a proper prefix first. */
  function CompareText(a: string, b: string): (c: int)
    ensures -1 <= c <= 1
  {
    if a == [] && b == [] then 0
    else if a == [] then -1
    else if b == [] then 1
    else if a[0] < b[0] then -1
    else if a[0] > b[0] then 1
    else CompareText(a[1..], b[1..])
  }

  lemma {:induction false} CompareTextFlip(a: string, b: string)
    ensures CompareText(a, b) == -CompareText(b, a)
  {
    if a != [] && b != [] && a[0] == b[0] {
      CompareTextFlip(a[1..], b[1..]);
    }
  }

  lemma {:induction false} CompareTextZero(a: string, b: string)
    ensures CompareText(a, b) == 0 <==> a == b
  {
    if a != [] && b != [] && a[0] == b[0] {
      CompareTextZero(a[1..], b[1..]);
      assert a == [a[0]] + a[1..];
      assert b == [b[0]] + b[1..];
    }
  }

  lemma {:induction false} CompareTextTrans(a: string, b: string, c: string)
    requires CompareText(a, b) <= 0 && CompareText(b, c) <= 0
    ensures CompareText(a, c) <= 0
  {
    if a != [] && b != [] && c != [] && a[0] == b[0] && b[0] == c[0] {
      CompareTextTrans(a[1..], b[1..], c[1..]);
    }
  }

  /** `Comparator.nullsLast(compareTo)` on optional numbers. */
  function CompareNullsLast(a: Option<int>, b: Option<int>): (c: int)
    ensures -1 <= c <= 1
    ensures c == 0 <==> a == b
    ensures a.None? && b.Some? ==> c == 1
    ensures a.Some? && b.None? ==> c == -1
    ensures a.Some? && b.Some? ==> (c < 0 <==> a.value < b.value)
  {
    match (a, b)
    case (None, None) => 0
    case (None, Some(_)) => 1
    case (Some(_), None) => -1
    case (Some(x), Some(y)) => if x < y then -1 else if x > y then 1 else 0
  }

  /** The ascending comparator for one sort key. */
  function CompareAsc(field: SortField, p: Product, q: Product): int {
    match field
    case ByPrice => CompareNullsLast(p.price, q.price)
    case ByOldPrice => CompareNullsLast(p.oldPrice, q.oldPrice)
    case ByStock => CompareNullsLast(p.stock, q.stock)
    case ByBrand => CompareText(SafeLower(p.brand), SafeLower(q.brand))
    case ByCategory => CompareText(SafeLower(p.category), SafeLower(q.category))
    case ById => CompareText(SafeLower(p.id), SafeLower(q.id))
    case ByName => CompareText(SafeLower(p.name), SafeLower(q.name))
  }

  /** The comparator `resolveComparator` returns; `reversed()` swaps its arguments. */
  function Compare(field: SortField, dir: Direction, p: Product, q: Product): int {
    if dir == Desc then CompareAsc(field, q, p) else CompareAsc(field, p, q)
  }

  /** Two products tie when their keys are equal; the direction does not matter. */
  predicate Tie(field: SortField, p: Product, q: Product) {
    CompareAsc(field, p, q) == 0
  }

  /** The key of `p` under `field`, as a value, so ties can be read as key equality. */
  function Key(field: SortField, p: Product): (Option<int>, string) {
    match field
    case ByPrice => (p.price, [])
    case ByOldPrice => (p.oldPrice, [])
    case ByStock => (p.stock, [])
    case ByBrand => (None, SafeLower(p.brand))
    case ByCategory => (None, SafeLower(p.category))
    case ById => (None, SafeLower(p.id))
    case ByName => (None, SafeLower(p.name))
  }

  /** The comparator is consistent with equality of keys, antisymmetric and transitive. */
  lemma CompareLaws(field: SortField, dir: Direction, p: Product, q: Product, r: Product)
    ensures Tie(field, p, q) <==> Key(field, p) == Key(field, q)
    ensures Compare(field, dir, p, q) == -Compare(field, dir, q, p)
    ensures Compare(field, dir, p, q) == 0 <==> Tie(field, p, q)
    ensures Compare(field, dir, p, q) <= 0 && Compare(field, dir, q, r) <= 0 ==> Compare(field, dir, p, r) <= 0
  {
    match field
    case ByBrand =>
      CompareTextZero(SafeLower(p.brand), SafeLower(q.brand));
      TextLaws(SafeLower(p.brand), SafeLower(q.brand), SafeLower(r.brand));
    case ByCategory =>
      CompareTextZero(SafeLower(p.category), SafeLower(q.category));
      TextLaws(SafeLower(p.category), SafeLower(q.category), SafeLower(r.category));
    case ById =>
      CompareTextZero(SafeLower(p.id), SafeLower(q.id));
      TextLaws(SafeLower(p.id), SafeLower(q.id), SafeLower(r.id));
    case ByName =>
      CompareTextZero(SafeLower(p.name), SafeLower(q.name));
      TextLaws(SafeLower(p.name), SafeLower(q.name), SafeLower(r.name));
    case _ =>
  }

  lemma TextLaws(a: string, b: string, c: string)
    ensures CompareText(a, b) == -CompareText(b, a)
    ensures CompareText(a, b) == 0 <==> a == b
    ensures CompareText(a, b) <= 0 && CompareText(b, c) <= 0 ==> CompareText(a, c) <= 0
    ensures CompareText(c, b) <= 0 && CompareText(b, a) <= 0 ==> CompareText(c, a) <= 0
  {
    CompareTextFlip(a, b);
    CompareTextZero(a, b);
    if CompareText(a, b) <= 0 && CompareText(b, c) <= 0 {
      CompareTextTrans(a, b, c);
    }
    if CompareText(c, b) <= 0 && CompareText(b, a) <= 0 {
      CompareTextTrans(c, b, a);
    }
  }

  /** Every earlier element compares before-or-equal to every later one. */
  predicate Sorted(s: seq<Product>, field: SortField, dir: Direction) {
    forall i, j :: 0 <= i < j < |s| ==> Compare(field, dir, s[i], s[j]) <= 0
  }

  /** The elements of `s` that tie with `k`, in their order in `s`. */
  function Tied(s: seq<Product>, field: SortField, k: Product): seq<Product> {
    if s == [] then []
    else (if Tie(field, s[0], k) then [s[0]] else []) + Tied(s[1..], field, k)
  }

  /** Places `x` before the first element it does not follow: ahead of its ties. */
  function Insert(x: Product, t: seq<Product>, field: SortField, dir: Direction): seq<Product> {
    if t == [] then [x]
    else if Compare(field, dir, x, t[0]) <= 0 then [x] + t
    else [t[0]] + Insert(x, t[1..], field, dir)
  }

  /** A stable insertion sort: what `Stream.sorted(comparator)` yields on an ordered stream. */
  function Sort(s: seq<Product>, field: SortField, dir: Direction): seq<Product> {
    if s == [] then [] else Insert(s[0], Sort(s[1..], field, dir), field, dir)
  }

  lemma {:induction false} InsertPermutes(x: Product, t: seq<Product>, field: SortField, dir: Direction)
    ensures multiset(Insert(x, t, field, dir)) == multiset(t) + multiset{x}
  {
    if t != [] && Compare(field, dir, x, t[0]) > 0 {
      InsertPermutes(x, t[1..], field, dir);
      assert t == [t[0]] + t[1..];
    }
  }

  /** A product that precedes `x` and every element of `t` precedes every element of the insertion. */
  lemma {:induction false} InsertLowerBound(c: Product, x: Product, t: seq<Product>, field: SortField, dir: Direction)
    requires Compare(field, dir, c, x) <= 0
    requires forall i :: 0 <= i < |t| ==> Compare(field, dir, c, t[i]) <= 0
    ensures forall i :: 0 <= i < |Insert(x, t, field, dir)| ==> Compare(field, dir, c, Insert(x, t, field, dir)[i]) <= 0
  {
    if t != [] && Compare(field, dir, x, t[0]) > 0 {
      InsertLowerBound(c, x, t[1..], field, dir);
    }
  }

  /** Putting a product before the head it does not follow keeps a sorted list sorted. */
  lemma PrependSorted(x: Product, t: seq<Product>, field: SortField, dir: Direction)
    requires Sorted(t, field, dir) && t != [] && Compare(field, dir, x, t[0]) <= 0
    ensures Sorted([x] + t, field, dir)
  {
    var r := [x] + t;
    forall i, j | 0 <= i < j < |r| ensures Compare(field, dir, r[i], r[j]) <= 0 {
      if i == 0 && j > 1 {
        CompareLaws(field, dir, x, t[0], t[j - 1]);
      }
    }
  }

  lemma {:induction false} InsertSorted(x: Product, t: seq<Product>, field: SortField, dir: Direction)
    requires Sorted(t, field, dir)
    ensures Sorted(Insert(x, t, field, dir), field, dir)
  {
    if t == [] {
    } else if Compare(field, dir, x, t[0]) <= 0 {
      PrependSorted(x, t, field, dir);
    } else {
      var rest := Insert(x, t[1..], field, dir);
      InsertSorted(x, t[1..], field, dir);
      CompareLaws(field, dir, x, t[0], x);
      InsertLowerBound(t[0], x, t[1..], field, dir);
      var r := [t[0]] + rest;
      assert forall j :: 1 <= j < |r| ==> r[j] == rest[j - 1];
    }
  }

  lemma {:induction false} InsertTied(x: Product, t: seq<Product>, field: SortField, dir: Direction, k: Product)
    ensures Tied(Insert(x, t, field, dir), field, k)
         == (if Tie(field, x, k) then [x] else []) + Tied(t, field, k)
  {
    if t == [] {
      assert Tied([x], field, k) == (if Tie(field, x, k) then [x] else []) + Tied([], field, k);
    } else if Compare(field, dir, x, t[0]) <= 0 {
      assert ([x] + t)[1..] == t;
    } else {
      var rest := Insert(x, t[1..], field, dir);
      InsertTied(x, t[1..], field, dir, k);
      assert ([t[0]] + rest)[1..] == rest;
      CompareLaws(field, dir, x, t[0], k);
      CompareLaws(field, dir, t[0], k, x);
      CompareLaws(field, Asc, x, k, t[0]);
    }
  }

  /** The sort returns a permutation of its input, ordered by the comparator. */
  lemma {:induction false} SortCorrect(s: seq<Product>, field: SortField, dir: Direction)
    ensures multiset(Sort(s, field, dir)) == multiset(s)
    ensures Sorted(Sort(s, field, dir), field, dir)
  {
    if s != [] {
      SortCorrect(s[1..], field, dir);
      InsertPermutes(s[0], Sort(s[1..], field, dir), field, dir);
      InsertSorted(s[0], Sort(s[1..], field, dir), field, dir);
      assert s == [s[0]] + s[1..];
    }
  }

  /** Stability: products with equal keys keep their relative order, in both directions. */
  lemma {:induction false} SortStable(s: seq<Product>, field: SortField, dir: Direction, k: Product)
    ensures Tied(Sort(s, field, dir), field, k) == Tied(s, field, k)
  {
    if s != [] {
      SortStable(s[1..], field, dir, k);
      InsertTied(s[0], Sort(s[1..], field, dir), field, dir, k);
    }
  }
}
