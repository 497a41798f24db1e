/**
 * `productsService.ts`: the query string `fetchProducts` builds with
 * successive `URLSearchParams.set` calls, and how it turns the response into
 * a payload or an error. The HTTP exchange itself is a parameter.
 */
module ProductsService {
  import opened Wrappers
  import opened Text
  import opened ProductTypes

  datatype SortDirection = Asc | Desc {
    function Text(): string {
      if Asc? then "asc" else "desc"
    }
  }

  /** `ProductQueryParams`: every field optional. */
  datatype QueryParams = QueryParams(
    page: Option<int>,
    size: Option<int>,
    sortBy: Option<string>,
    sortDir: Option<SortDirection>,
    search: Option<string>,
    brand: Option<string>,
    category: Option<string>
  )

  /** A value thrown in JavaScript: an `Error` with its message, or anything else. */
  datatype Thrown = ErrorValue(message: string) | OtherValue

  /** What `fetch` and `response.json()` produce: a response, or a rejection. */
  datatype HttpOutcome = Response(status: int, body: ApiProductsResponse) | Failed(thrown: Thrown)

  /** The names `fetchProducts` may put in the query string. */
  datatype ParamName = Page | Size | SortBy | SortDir | Search | Brand | Category {
    function Text(): string {
      match this
      case Page => "page"
      case Size => "size"
      case SortBy => "sortBy"
      case SortDir => "sortDir"
      case Search => "search"
      case Brand => "brand"
      case Category => "category"
    }

    /** The position of the name in the order `fetchProducts` sets them. */
    function Rank(): nat {
      match this
      case Page => 0
      case Size => 1
      case SortBy => 2
      case SortDir => 3
      case Search => 4
      case Brand => 5
      case Category => 6
    }
  }

  /** `URLSearchParams` as its ordered list of name/value pairs. */
  type SearchParams = seq<(ParamName, string)>

  function Keys(ps: SearchParams): (ks: seq<ParamName>)
    ensures |ks| == |ps|
    ensures forall i :: 0 <= i < |ps| ==> ks[i] == ps[i].0
  {
    seq(|ps|, i requires 0 <= i < |ps| => ps[i].0)
  }

  /** `get(name)`: the value of the first pair with that name. */
  function Get(ps: SearchParams, key: ParamName): Option<string> {
    if ps == [] then None else if ps[0].0 == key then Some(ps[0].1) else Get(ps[1..], key)
  }

  predicate Distinct(ks: seq<ParamName>) {
    forall i, j :: 0 <= i < j < |ks| ==> ks[i] != ks[j]
  }

  /** No name appears twice. */
  predicate DistinctKeys(ps: SearchParams) {
    Distinct(Keys(ps))
  }

  /** `delete(name)`: every pair with that name goes, the others stay in order. */
  function Remove(ps: SearchParams, key: ParamName): (r: SearchParams)
    ensures key !in Keys(r)
    ensures forall k :: k != key ==> Get(r, k) == Get(ps, k)
    ensures forall i :: 0 <= i < |r| ==> r[i] in ps
  {
    if ps == [] then []
    else if ps[0].0 == key then Remove(ps[1..], key)
    else
      var rest := Remove(ps[1..], key);
      assert Keys([ps[0]] + rest) == [ps[0].0] + Keys(rest);
      assert ([ps[0]] + rest)[1..] == rest;
      [ps[0]] + rest
  }

  /**
   * `set(name, value)`: the first pair with that name takes the value and
   * later ones are dropped; with no such pair, the pair is appended.
   */
  function Set(ps: SearchParams, key: ParamName, value: string): (r: SearchParams)
    ensures Get(r, key) == Some(value)
    ensures forall k :: k != key ==> Get(r, k) == Get(ps, k)
    ensures key !in Keys(ps) ==> r == ps + [(key, value)]
  {
    if ps == [] then [(key, value)]
    else if ps[0].0 == key then [(key, value)] + Remove(ps[1..], key)
    else
      var rest := Set(ps[1..], key, value);
      assert ([ps[0]] + rest)[1..] == rest;
      assert key !in Keys(ps) ==> key !in Keys(ps[1..]);
      [ps[0]] + rest
  }

  /** `params.x?.trim()` is truthy: the filter is present and not blank. */
  predicate Sends(filter: Option<string>) {
    filter.Some? && !IsBlank(filter.value)
  }

  /** The value a filter contributes to the query string: its trimmed text, or nothing. */
  function FilterValue(filter: Option<string>): (r: Option<string>)
    ensures r.Some? <==> Sends(filter)
    ensures r.Some? ==> r.value != [] && IsTrimmed(r.value) && r.value == Trim(filter.value)
  {
    if Sends(filter) then Some(Trim(filter.value)) else None
  }

  /** The name a filter adds to the query string: itself when the filter is sent, nothing otherwise. */
  function SentName(filter: Option<string>, name: ParamName): (ks: seq<ParamName>)
    ensures ks == [] || ks == [name]
    ensures ks != [] <==> Sends(filter)
  {
    if Sends(filter) then [name] else []
  }

  /** The names `fetchProducts` puts in the query string, in order. */
  function ExpectedKeys(params: QueryParams): seq<ParamName> {
    [Page, Size, SortBy, SortDir]
    + SentName(params.search, Search)
    + SentName(params.brand, Brand)
    + SentName(params.category, Category)
  }

  /**
   * The value sent under each name: the page and size (0 and 100 by default),
   * the sort field and direction ("id" and "asc" by default), and a filter's
   * trimmed text.
   */
  function ValueFor(params: QueryParams, name: ParamName): string {
    match name
    case Page => IntToString(params.page.GetOr(0))
    case Size => IntToString(params.size.GetOr(100))
    case SortBy => params.sortBy.GetOr("id")
    case SortDir => params.sortDir.GetOr(Asc).Text()
    case Search => Trim(params.search.GetOr(""))
    case Brand => Trim(params.brand.GetOr(""))
    case Category => Trim(params.category.GetOr(""))
  }

  /** Every pair carries the value `fetchProducts` sends under its name. */
  predicate Carries(params: QueryParams, ps: SearchParams) {
    forall i :: 0 <= i < |ps| ==> ps[i].1 == ValueFor(params, ps[i].0)
  }

  lemma KeysAppend(a: SearchParams, b: SearchParams)
    ensures Keys(a + b) == Keys(a) + Keys(b)
  {
  }

  lemma CarriesAppend(params: QueryParams, a: SearchParams, b: SearchParams)
    requires Carries(params, a) && Carries(params, b)
    ensures Carries(params, a + b)
  {
    assert forall i :: |a| <= i < |a + b| ==> (a + b)[i] == b[i - |a|];
  }

  /** The paging and sorting pairs, each with its default when absent. */
  function FixedPairs(params: QueryParams): (ps: SearchParams)
    ensures Keys(ps) == [Page, Size, SortBy, SortDir]
    ensures Carries(params, ps)
  {
    [(Page, IntToString(params.page.GetOr(0))), (Size, IntToString(params.size.GetOr(100))),
     (SortBy, params.sortBy.GetOr("id")), (SortDir, params.sortDir.GetOr(Asc).Text())]
  }

  /** The pair a filter adds: its trimmed text under its name when it is not blank, nothing otherwise. */
  function FilterPair(name: ParamName, filter: Option<string>): (ps: SearchParams)
    ensures Keys(ps) == SentName(filter, name)
  {
    if Sends(filter) then [(name, Trim(filter.value))] else []
  }

  /** The pairs `fetchProducts` sends, in the order it sets them. */
  function ExpectedParams(params: QueryParams): SearchParams {
    FixedPairs(params)
    + FilterPair(Search, params.search)
    + FilterPair(Brand, params.brand)
    + FilterPair(Category, params.category)
  }

  /**
   * The query string `fetchProducts` builds sends the expected names, each
   * once, each with its default or trimmed value.
   */
  lemma ExpectedParamsShape(params: QueryParams)
    ensures Keys(ExpectedParams(params)) == ExpectedKeys(params)
    ensures DistinctKeys(ExpectedParams(params))
    ensures Carries(params, ExpectedParams(params))
  {
    var fixed := FixedPairs(params);
    var s, b, c := FilterPair(Search, params.search), FilterPair(Brand, params.brand), FilterPair(Category, params.category);
    KeysAppend(fixed, s);
    KeysAppend(fixed + s, b);
    KeysAppend(fixed + s + b, c);
    CarriesAppend(params, fixed, s);
    CarriesAppend(params, fixed + s, b);
    CarriesAppend(params, fixed + s + b, c);
    ExpectedKeysDistinct(params);
  }

  /** The four unconditional `set` calls on an empty query string append the paging and sorting pairs. */
  lemma PagingAndSorting(params: QueryParams)
    ensures Set(Set(Set(Set([], Page, IntToString(params.page.GetOr(0))), Size, IntToString(params.size.GetOr(100))),
                    SortBy, params.sortBy.GetOr("id")), SortDir, params.sortDir.GetOr(Asc).Text())
            == FixedPairs(params)
  {
    var p1 := Set([], Page, IntToString(params.page.GetOr(0)));
    var p2 := Set(p1, Size, IntToString(params.size.GetOr(100)));
    var p3 := Set(p2, SortBy, params.sortBy.GetOr("id"));
    assert p1 == [(Page, IntToString(params.page.GetOr(0)))];
    assert Keys(p1) == [Page];
    assert p2 == p1 + [(Size, IntToString(params.size.GetOr(100)))];
    assert Keys(p2) == [Page, Size];
    assert p3 == p2 + [(SortBy, params.sortBy.GetOr("id"))];
    assert Keys(p3) == [Page, Size, SortBy];
  }

  /** `if (params.x?.trim()) query.set(x, params.x.trim())`, on a name not set yet. */
  method SetFilter(ps: SearchParams, name: ParamName, filter: Option<string>) returns (r: SearchParams)
    requires name !in Keys(ps)
    ensures r == ps + FilterPair(name, filter)
    ensures Keys(r) == Keys(ps) + SentName(filter, name)
  {
    KeysAppend(ps, FilterPair(name, filter));
    r := ps;
    if filter.Some? && Trim(filter.value) != [] {
      r := Set(r, name, Trim(filter.value));
    }
  }

  /** The query string of `fetchProducts`: defaults for paging and sorting, trimmed non-blank filters. */
  method BuildSearchParams(params: QueryParams) returns (ps: SearchParams)
    ensures ps == ExpectedParams(params)
    ensures Keys(ps) == ExpectedKeys(params)
    ensures DistinctKeys(ps)
    ensures Carries(params, ps)
  {
    ps := [];
    ps := Set(ps, Page, IntToString(params.page.GetOr(0)));
    ps := Set(ps, Size, IntToString(params.size.GetOr(100)));
    ps := Set(ps, SortBy, params.sortBy.GetOr("id"));
    ps := Set(ps, SortDir, params.sortDir.GetOr(Asc).Text());
    assert ps == FixedPairs(params) by { PagingAndSorting(params); }
    ps := SetFilter(ps, Search, params.search);
    ps := SetFilter(ps, Brand, params.brand);
    ps := SetFilter(ps, Category, params.category);
    ExpectedParamsShape(params);
  }

  /** Paging, sorting and the three filters are sent under different names. */
  lemma ExpectedKeysDistinct(params: QueryParams)
    ensures Distinct(ExpectedKeys(params))
  {
    var base := [Page, Size, SortBy, SortDir];
    var withSearch := base + SentName(params.search, Search);
    var withBrand := withSearch + SentName(params.brand, Brand);
    DistinctAppend(base, SentName(params.search, Search));
    DistinctAppend(withSearch, SentName(params.brand, Brand));
    DistinctAppend(withBrand, SentName(params.category, Category));
  }

  /** Appending at most one new name keeps the names distinct. */
  lemma DistinctAppend(ks: seq<ParamName>, extra: seq<ParamName>)
    requires Distinct(ks) && |extra| <= 1
    requires forall k :: k in extra ==> k !in ks
    ensures Distinct(ks + extra)
  {
    if extra != [] {
      assert extra[0] in extra;
      assert forall i :: 0 <= i < |ks| ==> ks[i] in ks && (ks + extra)[i] == ks[i] != extra[0];
    }
  }

  /** The names are distinct as text too, so `get` on the query string finds each one. */
  lemma NamesDistinctAsText(a: ParamName, b: ParamName)
    ensures a.Text() == b.Text() <==> a == b
  {
    if a != b {
      assert |a.Text()| != |b.Text()| || a.Text()[1] != b.Text()[1];
    }
  }

  lemma {:induction false} GetAppend(a: SearchParams, b: SearchParams, key: ParamName)
    ensures Get(a + b, key) == if key in Keys(a) then Get(a, key) else Get(b, key)
  {
    if a == [] {
      assert a + b == b;
    } else {
      assert (a + b)[0] == a[0];
      assert (a + b)[1..] == a[1..] + b;
      assert Keys(a) == [a[0].0] + Keys(a[1..]);
      GetAppend(a[1..], b, key);
    }
  }

  /** With distinct names, `get` returns the value of the only pair with that name. */
  lemma {:induction false} GetFindsPair(ps: SearchParams, i: nat)
    requires i < |ps| && DistinctKeys(ps)
    ensures Get(ps, ps[i].0) == Some(ps[i].1)
  {
    if i > 0 {
      assert ps[0].0 != ps[i].0 by { assert Keys(ps)[0] != Keys(ps)[i]; }
      assert ps[1..][i - 1] == ps[i];
      assert DistinctKeys(ps[1..]) by {
        forall j, k | 0 <= j < k < |ps| - 1 ensures Keys(ps[1..])[j] != Keys(ps[1..])[k] {
          assert Keys(ps)[j + 1] != Keys(ps)[k + 1];
        }
      }
      GetFindsPair(ps[1..], i - 1);
    }
  }

  /** Which names `fetchProducts` sends: paging and sorting always, a filter when it is not blank. */
  lemma ExpectedKeysMembership(params: QueryParams, name: ParamName)
    ensures name in ExpectedKeys(params) <==> (
              name in [Page, Size, SortBy, SortDir]
              || (name == Search && Sends(params.search))
              || (name == Brand && Sends(params.brand))
              || (name == Category && Sends(params.category)))
  {
  }

  /** What `get` reads back from the query string `fetchProducts` builds. */
  lemma {:induction false} SentValues(params: QueryParams, ps: SearchParams, name: ParamName)
    requires Keys(ps) == ExpectedKeys(params) && DistinctKeys(ps) && Carries(params, ps)
    ensures name in ExpectedKeys(params) ==> Get(ps, name) == Some(ValueFor(params, name))
    ensures name !in ExpectedKeys(params) ==> Get(ps, name) == None
    ensures name in ExpectedKeys(params) <==> (
              name in [Page, Size, SortBy, SortDir]
              || (name == Search && Sends(params.search))
              || (name == Brand && Sends(params.brand))
              || (name == Category && Sends(params.category)))
  {
    ExpectedKeysMembership(params, name);
    if name in Keys(ps) {
      var i :| 0 <= i < |ps| && Keys(ps)[i] == name;
      GetFindsPair(ps, i);
      assert ps[i].1 == ValueFor(params, name);
    } else {
      GetAppend(ps, [], name);
      assert ps + [] == ps;
    }
  }

  /** The message of the error thrown for a response that is not ok. */
  function StatusMessage(status: int): string {
    "No se pudieron cargar productos (" + IntToString(status) + ")"
  }

  /** The message names the status code that caused it. */
  lemma StatusMessageNamesStatus(status: int)
    ensures Contains(StatusMessage(status), IntToString(status))
  {
    var prefix := "No se pudieron cargar productos (";
    var m := StatusMessage(status);
    assert m == prefix + IntToString(status) + ")";
    assert m[|prefix|..|prefix| + |IntToString(status)|] == IntToString(status);
    assert OccursAt(m, IntToString(status), |prefix|);
  }

  /** `response.ok`. */
  predicate IsOk(status: int) {
    200 <= status <= 299
  }

  /** What the awaited `fetchProducts` yields for one HTTP exchange. */
  function FetchResult(outcome: HttpOutcome): (r: Result<ApiProductsResponse, Thrown>)
    ensures r.Ok? <==> outcome.Response? && IsOk(outcome.status)
    ensures r.Ok? ==> r.value == outcome.body
    ensures outcome.Failed? ==> r == Err(outcome.thrown)
    ensures (outcome.Response? && !IsOk(outcome.status)) ==> r == Err(ErrorValue(StatusMessage(outcome.status)))
  {
    match outcome
    case Failed(thrown) => Err(thrown)
    case Response(status, body) =>
      if IsOk(status) then Ok(body) else Err(ErrorValue(StatusMessage(status)))
  }

  /**
   * `fetchProducts`: builds the query string, performs the single exchange
   * given as `outcome`, and returns the payload or the error; nothing is retried.
   */
  method FetchProducts(params: QueryParams, outcome: HttpOutcome) returns (sent: SearchParams, r: Result<ApiProductsResponse, Thrown>)
    ensures Keys(sent) == ExpectedKeys(params) && DistinctKeys(sent) && Carries(params, sent)
    ensures r == FetchResult(outcome)
    ensures (outcome.Response? && !IsOk(outcome.status))
              ==> r.Err? && r.error.ErrorValue? && Contains(r.error.message, IntToString(outcome.status))
  {
    sent := BuildSearchParams(params);
    r := FetchResult(outcome);
    if outcome.Response? && !IsOk(outcome.status) {
      StatusMessageNamesStatus(outcome.status);
    }
  }
}
