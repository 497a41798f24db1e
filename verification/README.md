# Catalogue: a verified model of the product search and the shop front

The catalogue is a small shop. A Spring Boot backend serves the products it
loads from `catalog.json`. `GET /api/products` filters, sorts and pages them,
and `GET /api/products/{id}` looks one up. A React front end shows them nine
to a page. It keeps a cart, a product modal with an image carousel, a mock
checkout with a card-details dialog, and a three-note easter egg that opens
the credits.

This Dafny project models both halves:

- Backend:
  - `ProductService`: normalisation of the filters, matching,
    `resolveComparator` with the stable sort of `Stream.sorted`, and
    pagination. The three scenarios of `ProductServiceTest` are stated as
    lemmas.
  - `ProductRepository`: a class whose product list `init` replaces.
  - `ProductController`: Spring's defaults, type conversion and bean
    validation, in the order Spring applies them, then the min/max price
    check and the look-up by id.
  - `GlobalExceptionHandler`: the table from exception to status, reason
    phrase and message.
- Front end:
  - `productsService.ts`: the query string built by successive
    `URLSearchParams.set` calls, and the error thrown for a response that is
    not ok.
  - `useProducts.ts`: the mapping from API records to view products (bundled
    fallback image, two detail images), and the hook as a class. Each run of
    its effect is a numbered load, and only the load whose effect has not been
    cleaned up may commit.
  - `App.tsx`:
    - `AppView` holds the derived values (sort parameters, pages of nine,
      cart updater, totals, carousel steps).
    - `AppState.App` is a class whose fields are the component's `useState`
      values. Each pending `setTimeout` is a boolean field, and its callback
      is a `Fire…` method. The `ended` listener on the last easter-egg note
      is a field too, and `FinalCueEnded` is that event.
- `CatalogueContract` joins the halves. It reads the query string the front
  end sends as the controller's request parameters, and proves that every
  request the view can make is accepted and reaches the service as intended.

Prices are integers: cents on the backend (exact `BigDecimal` values), plain
numbers on the front end. Strings are `seq<char>`. Java's `trim()` (every
character up to U+0020) stands in for both languages' `trim`, and ASCII
lower-casing stands in for the backend's `toLowerCase(Locale.ROOT)`.

Choosing one sort order does not reset the other. `App.tsx` keeps both
orders (App.tsx:433-434), and `sortParams` gives the alphabetical one
precedence (App.tsx:72-80); `AppState.App.SetAlphabeticalOrder` and
`AppState.App.SetPriceOrder` keep the other order as it is.

## Model

| member | source | states |
|---|---|---|
| Text.Trim | backend/src/main/java/com/catalogo/backend/service/ProductService.java:133 | `trim()` keeps a slice with no space at either end, no longer than the input |
| Text.TrimOfTrimmed | backend/src/main/java/com/catalogo/backend/service/ProductService.java:133 | trimming a string with no space at either end changes nothing |
| Text.BlankIffAllSpaces | backend/src/main/java/com/catalogo/backend/service/ProductService.java:133-136 | a value trims to empty exactly when every character is a space |
| Text.Lower | backend/src/main/java/com/catalogo/backend/service/ProductService.java:137 | `toLowerCase(Locale.ROOT)` keeps the length and lowers each ASCII letter |
| Text.LowerIsLower | backend/src/main/java/com/catalogo/backend/service/ProductService.java:137 | lower-casing yields lower case and is the identity on lower-case text |
| Text.LowerKeepsTrimmed | backend/src/main/java/com/catalogo/backend/service/ProductService.java:137 | lower-casing keeps a trimmed string trimmed |
| Text.OccurrenceInTrimmed | backend/src/main/java/com/catalogo/backend/service/ProductService.java:84-85 | an occurrence in the trimmed text is an occurrence in the original |
| Text.OccurrenceSurvivesTrim | backend/src/main/java/com/catalogo/backend/service/ProductService.java:84-85 | an occurrence of a trimmed, non-empty needle survives trimming the haystack |
| Text.ContainsTrimmed | backend/src/main/java/com/catalogo/backend/service/ProductService.java:84-85 | trimming the haystack does not change whether it contains a trimmed, non-empty needle |
| Text.NatToString | frontend/front/src/services/productsService.ts:17-18 | `String(n)` is a non-empty string of decimal digits |
| Text.IntToString | frontend/front/src/services/productsService.ts:17-18 | `String(n)` of a negative number is a minus sign followed by the digits of its magnitude |
| Text.DecimalValueOfNatToString | frontend/front/src/hooks/useProducts.ts:8 | reading back the decimal rendering of a number gives the number |
| Text.RemoveWhitespace | backend/src/main/java/com/catalogo/backend/controller/ProductController.java:47-51 | Spring's whitespace removal leaves no whitespace and never lengthens the text |
| Text.RemoveWhitespaceAppend | backend/src/main/java/com/catalogo/backend/controller/ProductController.java:47-51 | removal works piece by piece: the result for `a + b` is the result for `a` followed by the result for `b` |
| Text.RemoveWhitespaceKeeps | backend/src/main/java/com/catalogo/backend/controller/ProductController.java:47-51 | text with no whitespace is left unchanged |
| Text.RemoveWhitespaceDropsInserted | backend/src/main/java/com/catalogo/backend/controller/ProductController.java:47-51 | a whitespace character inserted anywhere is removed again |
| Text.HexDigitValue | backend/src/main/java/com/catalogo/backend/controller/ProductController.java:47-51 | a hexadecimal digit of either case is worth less than 16, and a decimal digit keeps its value |
| ProductOrdering.SafeLower | backend/src/main/java/com/catalogo/backend/service/ProductService.java:140-142 | `safeLower` maps null to "" and yields lower-case text |
| ProductOrdering.ResolveField | backend/src/main/java/com/catalogo/backend/service/ProductService.java:104-121 | each recognised name selects its key, in both directions; anything else sorts by name |
| ProductOrdering.ResolveDirection | backend/src/main/java/com/catalogo/backend/service/ProductService.java:123-126 | the order is reversed exactly when the direction is "desc" |
| ProductOrdering.CompareText | backend/src/main/java/com/catalogo/backend/service/ProductService.java:114-120 | the comparison is reduced to its sign, -1, 0 or 1; its laws are the three lemmas below |
| ProductOrdering.CompareTextFlip | backend/src/main/java/com/catalogo/backend/service/ProductService.java:114-120 | swapping the arguments of the text comparison negates it |
| ProductOrdering.CompareTextZero | backend/src/main/java/com/catalogo/backend/service/ProductService.java:114-120 | the text comparison is 0 exactly for equal strings |
| ProductOrdering.CompareTextTrans | backend/src/main/java/com/catalogo/backend/service/ProductService.java:114-120 | the text order is transitive |
| ProductOrdering.CompareNullsLast | backend/src/main/java/com/catalogo/backend/service/ProductService.java:108-112 | `nullsLast`: a missing value sorts after every present one, two missing ones tie |
| ProductOrdering.CompareLaws | backend/src/main/java/com/catalogo/backend/service/ProductService.java:104-127 | every comparator, reversed or not, is antisymmetric and transitive, and ties exactly on equal keys |
| ProductOrdering.SortCorrect | backend/src/main/java/com/catalogo/backend/service/ProductService.java:53 | `sorted` returns a permutation of its input, ordered by the comparator |
| ProductOrdering.SortStable | backend/src/main/java/com/catalogo/backend/service/ProductService.java:53 | `sorted` is stable: products with equal keys keep their relative order |
| ProductOrdering.InsertPermutes | backend/src/main/java/com/catalogo/backend/service/ProductService.java:53 | one insertion step adds exactly the inserted product |
| ProductOrdering.InsertLowerBound | backend/src/main/java/com/catalogo/backend/service/ProductService.java:53 | an element that precedes the new one and the whole list also precedes the list after insertion |
| ProductOrdering.PrependSorted | backend/src/main/java/com/catalogo/backend/service/ProductService.java:53 | putting an element that precedes the head in front of an ordered list keeps it ordered |
| ProductOrdering.InsertSorted | backend/src/main/java/com/catalogo/backend/service/ProductService.java:53 | one insertion step keeps the list ordered |
| ProductOrdering.InsertTied | backend/src/main/java/com/catalogo/backend/service/ProductService.java:53 | one insertion step puts the product before every product it ties with, so the head of the input stays ahead of its ties |
| ProductOrdering.Compare | backend/src/main/java/com/catalogo/backend/service/ProductService.java:104-127 | `resolveComparator`: the key of the resolved field with nulls last, reversed for "desc"; `CompareLaws` proves it antisymmetric, transitive and zero exactly on equal keys |
| ProductOrdering.Sort | backend/src/main/java/com/catalogo/backend/service/ProductService.java:53 | `Stream.sorted` as insertion of each head into the sorted tail; `SortCorrect` proves it an ordered permutation and `SortStable` keeps ties in input order |
| ProductService.Normalize | backend/src/main/java/com/catalogo/backend/service/ProductService.java:129-138 | null or blank becomes null; anything else is non-empty, trimmed and lower case |
| ProductService.NormalizeIdempotent | backend/src/main/java/com/catalogo/backend/service/ProductService.java:129-138 | normalising twice is normalising once |
| ProductService.NormalizeIgnoresPaddingAndCase | backend/src/main/java/com/catalogo/backend/service/ProductService.java:129-138 | padding and letter case do not change the normalised value |
| ProductService.TrimLowerCommute | backend/src/main/java/com/catalogo/backend/service/ProductService.java:133-137 | trimming and lower-casing commute |
| ProductService.SafePage | backend/src/main/java/com/catalogo/backend/service/ProductService.java:45 | a missing or negative page is 0; any other page is kept |
| ProductService.SafeSize | backend/src/main/java/com/catalogo/backend/service/ProductService.java:46 | a missing or non-positive size is 10, a size over 100 is 100, others are kept |
| ProductService.Filter | backend/src/main/java/com/catalogo/backend/service/ProductService.java:48-52 | a product is kept exactly when it passes every filter, in catalogue order |
| ProductService.FilterAppend | backend/src/main/java/com/catalogo/backend/service/ProductService.java:48-54 | filtering a catalogue split in two gives the two filtered parts in order, so order and repeated entries are kept |
| ProductService.FilterSameNormalForm | backend/src/main/java/com/catalogo/backend/service/ProductService.java:39-52 | queries whose filters normalise alike and whose price bounds agree keep the same products |
| ProductService.TotalPages | backend/src/main/java/com/catalogo/backend/service/ProductService.java:57 | the page count is the ceiling of total over size, 0 for no matches |
| ProductService.CeilBounds | backend/src/main/java/com/catalogo/backend/service/ProductService.java:57 | the page count is the least number of pages that holds every match |
| ProductService.PageSlice | backend/src/main/java/com/catalogo/backend/service/ProductService.java:59-63 | the page holds the products from page times size, at most size of them |
| ProductService.Paginate | backend/src/main/java/com/catalogo/backend/service/ProductService.java:56-73 | the response echoes page and size, counts every match, and sets `hasPrevious`/`hasNext` by position |
| ProductService.SearchProducts | backend/src/main/java/com/catalogo/backend/service/ProductService.java:28-74 | the page and size are the clamped ones, at most size items, and navigation flags by position |
| ProductService.PaginateSlice | backend/src/main/java/com/catalogo/backend/service/ProductService.java:59-63 | the page is the contiguous run of the sorted list at page times size, empty past the end |
| ProductService.PageArith | backend/src/main/java/com/catalogo/backend/service/ProductService.java:56-72 | with pages as the ceiling of matches over size, the page's start lies inside the matches exactly when the page exists, and a next page implies a full page |
| ProductService.PaginateConsistent | backend/src/main/java/com/catalogo/backend/service/ProductService.java:56-72 | no pages exactly when there are no matches; a page is non-empty exactly when it exists; `hasNext` implies a full page |
| ProductService.SearchItemsMatch | backend/src/main/java/com/catalogo/backend/service/ProductService.java:48-63 | every listed product comes from the catalogue, passes every filter and has a price |
| ProductService.NullPriceNeverListed | backend/src/main/java/com/catalogo/backend/service/ProductService.java:95-98 | a product without a price is never listed, whatever the filters |
| ProductService.SortedMatchesOrdered | backend/src/main/java/com/catalogo/backend/service/ProductService.java:48-54 | the listed sequence is a permutation of the matches, ordered by the requested key, stable among ties |
| ProductService.SearchResponseDescribesMatches | backend/src/main/java/com/catalogo/backend/service/ProductService.java:48-73 | `totalElements` counts every match; `totalPages` is the ceiling `TotalPages` gives for the matches; the items are the `PageSlice` window of the sorted matches |
| ProductService.MatchesSearchUntrimmed | backend/src/main/java/com/catalogo/backend/service/ProductService.java:80-86 | trimming the haystack does not change the search result |
| ProductService.SortedMatchesElements | backend/src/main/java/com/catalogo/backend/service/ProductService.java:48-54 | the sorted matches are exactly the catalogue products that match |
| ProductService.MatchesSearch | backend/src/main/java/com/catalogo/backend/service/ProductService.java:80-86 | no term matches everything; a term must occur in the trimmed "name description" text; `SearchFindsNameOrDescription` and `MatchesSearchUntrimmed` state what that admits |
| ProductService.MatchesExactFilter | backend/src/main/java/com/catalogo/backend/service/ProductService.java:88-93 | no filter matches everything; otherwise the lower-cased value must equal the filter; `ExactFilterMatches` states its consequences |
| ProductService.MatchesPriceRange | backend/src/main/java/com/catalogo/backend/service/ProductService.java:95-102 | a product without a price never matches; otherwise the price lies within each bound given, inclusive; `NullPriceNeverListed` lifts it to the response |
| ProductService.Matches | backend/src/main/java/com/catalogo/backend/service/ProductService.java:49-52 | the conjunction of the four stream filters on the normalised query; `Filter` keeps exactly the products it admits |
| ProductService.SortedMatches | backend/src/main/java/com/catalogo/backend/service/ProductService.java:48-54 | the filtered catalogue sorted by the resolved comparator; `SortedMatchesOrdered` and `SortedMatchesElements` state its order and contents |
| ProductService.SearchFindsNameOrDescription | backend/src/main/java/com/catalogo/backend/service/ProductService.java:80-86 | a normalised term found in the lower-cased name or in the lower-cased description is a match |
| ProductService.ExactFilterMatches | backend/src/main/java/com/catalogo/backend/service/ProductService.java:88-93 | a product with no value fails every non-blank filter on it, and a trimmed value passes the filter typed as itself |
| ProductServiceExamples.FilterQ1 | backend/src/test/java/com/catalogo/backend/service/ProductServiceTest.java:30-44 | of the three sample products, only p1 passes the test's filters |
| ProductServiceExamples.SingleMatchFirstPage | backend/src/test/java/com/catalogo/backend/service/ProductServiceTest.java:46-48 | a single sorted match on page 0 is the whole page and the whole count |
| ProductServiceExamples.FirstPageHoldsAll | backend/src/test/java/com/catalogo/backend/service/ProductServiceTest.java:67-70 | when every match fits on page 0, the page is the sorted matches |
| ProductServiceExamples.SortedByPriceDesc | backend/src/test/java/com/catalogo/backend/service/ProductServiceTest.java:55-65 | with no filters, ordering by price descending gives p2, p1, p3 |
| ProductServiceExamples.FilterBySearchBrandCategoryAndPrice | backend/src/test/java/com/catalogo/backend/service/ProductServiceTest.java:30-49 | "wireless", Sony, Audio, 100-200 finds only p1, with one element in total |
| ProductServiceExamples.SortByPriceDescending | backend/src/test/java/com/catalogo/backend/service/ProductServiceTest.java:51-71 | sorting by price descending lists p2, p1, p3 |
| ProductServiceExamples.PaginateWithNavigationMetadata | backend/src/test/java/com/catalogo/backend/service/ProductServiceTest.java:73-95 | page 1 of size 2 has one item, 3 in total, 2 pages, a previous page and no next one |
| ProductServiceExamples.SonyNormalized | backend/src/test/java/com/catalogo/backend/service/ProductServiceTest.java:36 | the brand filter "Sony" normalises to "sony" |
| ProductServiceExamples.AudioNormalized | backend/src/test/java/com/catalogo/backend/service/ProductServiceTest.java:37 | the category filter "Audio" normalises to "audio" |
| ProductServiceExamples.Q1Normalized | backend/src/test/java/com/catalogo/backend/service/ProductServiceTest.java:34-44 | the test's filters normalise to "wireless", "sony" and "audio" |
| ProductServiceExamples.P1MatchesQ1 | backend/src/test/java/com/catalogo/backend/service/ProductServiceTest.java:46-47 | p1 passes every filter of the first test |
| ProductServiceExamples.OthersFailQ1 | backend/src/test/java/com/catalogo/backend/service/ProductServiceTest.java:46 | p2 and p3 fail the first test's filters |
| ProductServiceExamples.NoFilterKeepsAll | backend/src/test/java/com/catalogo/backend/service/ProductServiceTest.java:55-65 | with no filters all three sample products match |
| ProductServiceExamples.SortSamplesByPriceDesc | backend/src/test/java/com/catalogo/backend/service/ProductServiceTest.java:67-70 | the samples sorted by price descending are p2, p1, p3 |
| ProductServiceExamples.NormalizeNormal | backend/src/test/java/com/catalogo/backend/service/ProductServiceTest.java:40-41 | an already normal value is its own normal form |
| ProductServiceExamples.NormalizeTrimmed | backend/src/test/java/com/catalogo/backend/service/ProductServiceTest.java:35-37 | a trimmed, non-empty value normalises to its lower case |
| ProductRepository.FirstIndexWithId | backend/src/main/java/com/catalogo/backend/repository/ProductRepository.java:45-52 | the index of the first product with that id, none before it; none at all when absent or null |
| ProductRepository.Repository.constructor | backend/src/main/java/com/catalogo/backend/repository/ProductRepository.java:21 | the list starts empty |
| ProductRepository.Repository.Init | backend/src/main/java/com/catalogo/backend/repository/ProductRepository.java:27-39 | `init` replaces the list with the loaded one, or with an empty list when it reads null |
| ProductRepository.Repository.FindAll | backend/src/main/java/com/catalogo/backend/repository/ProductRepository.java:41-43 | `findAll` returns the stored list |
| ProductRepository.Repository.FindById | backend/src/main/java/com/catalogo/backend/repository/ProductRepository.java:45-52 | a null id finds nothing; otherwise the first stored product with that id, and nothing exactly when none has it |
| ExceptionHandler.Resolve | backend/src/main/java/com/catalogo/backend/exception/GlobalExceptionHandler.java:62-63 | a status read back from its numeric value is the status with that code |
| ExceptionHandler.BuildError | backend/src/main/java/com/catalogo/backend/exception/GlobalExceptionHandler.java:59-68 | the body repeats the status code, its reason phrase and the message |
| ExceptionHandler.Handle | backend/src/main/java/com/catalogo/backend/exception/GlobalExceptionHandler.java:18-57 | not found is 404 with its message; violations, conversion and illegal arguments are 400 with their messages; anything else is 500 |
| ExceptionHandler.HandleClassifies | backend/src/main/java/com/catalogo/backend/exception/GlobalExceptionHandler.java:18-57 | only a missing resource is 404, only an unexpected exception is 500, everything else is 400 |
| ProductController.TextOrDefault | backend/src/main/java/com/catalogo/backend/controller/ProductController.java:40-46 | a missing or empty text parameter takes its `defaultValue` |
| ProductController.NumOrNull | backend/src/main/java/com/catalogo/backend/controller/ProductController.java:38-39 | an optional price is present exactly when given |
| ProductController.FirstMalformed | backend/src/main/java/com/catalogo/backend/controller/ProductController.java:38-51 | the first parameter in declaration order that does not convert; none exactly when all convert |
| ProductController.Violations | backend/src/main/java/com/catalogo/backend/controller/ProductController.java:40-51 | each constraint message appears exactly when its constraint fails; none exactly when all hold |
| ProductController.GetProducts | backend/src/main/java/com/catalogo/backend/controller/ProductController.java:33-57 | conversion errors come first, then violations, then the price range; only a clean request reaches the service |
| ProductController.GetProductById | backend/src/main/java/com/catalogo/backend/controller/ProductController.java:59-64 | the product with that id, or a not-found error naming the id exactly when none has it |
| ProductController.BlankFilterIsMissing | backend/src/main/java/com/catalogo/backend/controller/ProductController.java:35-37 | an empty or blank `search`, `brand` or `category`, which Spring passes on as text, is answered exactly as a missing one |
| ProductController.AcceptedRequestNeedsNoClamping | backend/src/main/java/com/catalogo/backend/controller/ProductController.java:47-51 | an accepted request's page and size are already inside the service's bounds |
| ProductController.AcceptedSortByResolves | backend/src/main/java/com/catalogo/backend/controller/ProductController.java:40-44 | every accepted `sortBy`, in any letter case, selects the key it names |
| ProductController.AcceptedSortDirResolves | backend/src/main/java/com/catalogo/backend/controller/ProductController.java:45-46 | every accepted `sortDir` selects the direction it names |
| ProductController.ReversedPriceRangeIsBadRequest | backend/src/main/java/com/catalogo/backend/controller/ProductController.java:53-55 | a reversed price range is answered with 400, "Bad Request" and the range message |
| ProductController.UnknownIdIsNotFound | backend/src/main/java/com/catalogo/backend/controller/ProductController.java:59-64 | an unknown id is answered with 404 and a message ending in the id |
| ProductController.TrimmedIfLowerTrimmed | backend/src/main/java/com/catalogo/backend/controller/ProductController.java:40-46 | a value whose lower case has no space at the ends has none either |
| ProductController.SortByAccepted | backend/src/main/java/com/catalogo/backend/controller/ProductController.java:40-44 | the `(?i)` pattern on `sortBy`: one of the seven names in any letter case; `AcceptedSortByResolves` proves each selects its key |
| ProductController.SortDirAccepted | backend/src/main/java/com/catalogo/backend/controller/ProductController.java:45-46 | the `(?i)` pattern on `sortDir`: `asc` or `desc` in any letter case; `AcceptedSortDirResolves` proves each selects its direction |
| ProductsService.Remove | frontend/front/src/services/productsService.ts:17-24 | removing a name leaves no pair with it, every other name reads back as before, and no pair is invented |
| ProductsService.Set | frontend/front/src/services/productsService.ts:17-24 | after `set`, `get` returns the value and every other name reads back as before; a new name is appended at the end |
| ProductsService.FilterValue | frontend/front/src/services/productsService.ts:22-24 | a filter is sent exactly when it is not blank, and then trimmed and non-empty |
| ProductsService.Keys | frontend/front/src/services/productsService.ts:16-24 | the names of a query string, one per pair, in order |
| ProductsService.KeysAppend | frontend/front/src/services/productsService.ts:17-24 | the names of two joined lists of pairs are the names of the first followed by those of the second |
| ProductsService.CarriesAppend | frontend/front/src/services/productsService.ts:17-24 | joining two lists whose pairs carry the sent values keeps that property |
| ProductsService.SentName | frontend/front/src/services/productsService.ts:22-24 | a filter contributes its name exactly when it is not blank |
| ProductsService.FixedPairs | frontend/front/src/services/productsService.ts:17-20 | the four fixed pairs are named page, size, sortBy and sortDir, in that order, with their defaults when absent |
| ProductsService.FilterPair | frontend/front/src/services/productsService.ts:22-24 | a filter contributes one pair under its own name when it is not blank, and none otherwise |
| ProductsService.PagingAndSorting | frontend/front/src/services/productsService.ts:16-20 | the four `set` calls on an empty query string append page, size, sortBy and sortDir, in order |
| ProductsService.SetFilter | frontend/front/src/services/productsService.ts:22-24 | on a name not yet set, a filter appends its trimmed pair only when it is not blank, and the names grow by that name only then |
| ProductsService.BuildSearchParams | frontend/front/src/services/productsService.ts:16-24 | the query string is the fixed pairs followed by the non-blank filters' pairs; hence its names are page, size, sortBy, sortDir and the non-blank filters, in that order, each once, each with its default or trimmed value |
| ProductsService.ExpectedParamsShape | frontend/front/src/services/productsService.ts:16-24 | the expected query string has the expected names, no name twice, and each pair carries the value sent for its name |
| ProductsService.ExpectedKeysDistinct | frontend/front/src/services/productsService.ts:17-24 | no name is sent twice |
| ProductsService.DistinctAppend | frontend/front/src/services/productsService.ts:22-24 | appending at most one name that is not yet present keeps the names distinct |
| ProductsService.ExpectedKeysMembership | frontend/front/src/services/productsService.ts:17-24 | a name is sent exactly when it is a paging or sorting name, or a filter that is not blank |
| ProductsService.NamesDistinctAsText | frontend/front/src/services/productsService.ts:17-24 | the parameter names differ as text |
| ProductsService.GetAppend | frontend/front/src/services/productsService.ts:17-24 | `get` on a list of pairs reads the first part before the rest |
| ProductsService.GetFindsPair | frontend/front/src/services/productsService.ts:17-24 | with distinct names, `get` returns the value of the only pair with that name |
| ProductsService.SentValues | frontend/front/src/services/productsService.ts:16-24 | `get` reads each sent name's value back, and nothing for a filter that is not sent |
| ProductsService.StatusMessageNamesStatus | frontend/front/src/services/productsService.ts:27-29 | the error message contains the status code |
| ProductsService.FetchResult | frontend/front/src/services/productsService.ts:26-31 | the payload exactly for a 2xx response; an `Error` naming the status otherwise; a failed exchange rethrown as is |
| ProductsService.FetchProducts | frontend/front/src/services/productsService.ts:15-32 | one request with the built query string; the payload or the error of that single exchange |
| ProductsService.IsOk | frontend/front/src/services/productsService.ts:27 | `response.ok`: a status from 200 to 299; `FetchResult` proves only those yield the payload |
| ProductsService.StatusMessage | frontend/front/src/services/productsService.ts:28 | the error text for a failed status; `StatusMessageNamesStatus` proves it contains the status code |
| UseProducts.DigitsOf | frontend/front/src/hooks/useProducts.ts:8 | stripping non-digits leaves only digits, keeps an all-digit id and empties a digit-free one |
| UseProducts.FallbackNumber | frontend/front/src/hooks/useProducts.ts:8-9 | the bundled image number is always between 1 and 18 |
| UseProducts.PadTwo | frontend/front/src/hooks/useProducts.ts:10 | `padStart(2, '0')` yields at least two characters |
| UseProducts.FallbackIsBundledImage | frontend/front/src/hooks/useProducts.ts:7-11 | the fallback is "/mock/real/product-NN.jpg" with two digits NN naming 1 to 18 |
| UseProducts.FallbackNumberSmallIds | frontend/front/src/hooks/useProducts.ts:9 | ids whose digits read 1 to 18 get the image with that number |
| UseProducts.WrapImageNumber | frontend/front/src/hooks/useProducts.ts:9 | any number wraps into 1..18 |
| UseProducts.WrapImageNumberPeriodic | frontend/front/src/hooks/useProducts.ts:9 | positive numbers 18 apart wrap to the same image number |
| UseProducts.FallbackNumberPeriodic | frontend/front/src/hooks/useProducts.ts:9 | ids whose numbers differ by 18 share their image |
| UseProducts.MapApiProduct | frontend/front/src/hooks/useProducts.ts:13-29 | id, name and brand/category carried over, price defaults to 0, three images with the main one falling back to the bundled image |
| UseProducts.ImageIdShape | frontend/front/src/hooks/useProducts.ts:24-26 | each image id is the product id with its suffix |
| UseProducts.ImageIdsUnique | frontend/front/src/hooks/useProducts.ts:24-26 | two images with the same id are the same image of products with the same id |
| UseProducts.MapItems | frontend/front/src/hooks/useProducts.ts:65-67 | a non-array `items` gives no products; an array is mapped element by element, in order |
| UseProducts.ErrorMessage | frontend/front/src/hooks/useProducts.ts:71 | an `Error` contributes its message, anything else the generic one |
| UseProducts.HookQuery | frontend/front/src/hooks/useProducts.ts:44-55 | the hook asks for page 0 of size 100 with the view's sort and filters |
| UseProducts.BlankFiltersAreNotSent | frontend/front/src/hooks/useProducts.ts:44-55 | with blank filters only paging and sorting are sent, as "0", "100" and the view's sort |
| UseProducts.ProductsHook.constructor | frontend/front/src/hooks/useProducts.ts:40-42 | no products, loading, no error |
| UseProducts.ProductsHook.StartLoad | frontend/front/src/hooks/useProducts.ts:57-64 | a new load cancels the previous one, sets loading, clears the error and sends the built query string |
| UseProducts.ProductsHook.Unmount | frontend/front/src/hooks/useProducts.ts:84-86 | the cleanup cancels the running load and changes nothing shown |
| UseProducts.ProductsHook.Settle | frontend/front/src/hooks/useProducts.ts:63-79 | a cancelled load changes nothing; the active one stores the mapped items, or the error with an empty list, and stops loading |
| UseProducts.NewestQueryWins | frontend/front/src/hooks/useProducts.ts:57-87 | when an older answer arrives last, the list still shows the newest query's answer |
| UseProducts.HasImageUrl | frontend/front/src/hooks/useProducts.ts:15 | the image URL is present and not blank; `MapApiProduct` uses the fallback exactly when it is not |
| AppView.SortParams | frontend/front/src/App.tsx:72-80 | the alphabetical order wins, then the price order, otherwise id ascending |
| AppView.PageCount | frontend/front/src/App.tsx:90 | at least one page, and the fewest pages of nine that hold the list |
| AppView.PageSlice | frontend/front/src/App.tsx:91-93 | a page holds at most nine products |
| AppView.ProductPages | frontend/front/src/App.tsx:90-93 | one page per page count, each the clamped slice of nine |
| AppView.PagesPartitionList | frontend/front/src/App.tsx:90-93 | the pages together are the list, in order; all but the last are full; the last is empty only for an empty list |
| AppView.PagesPrefix | frontend/front/src/App.tsx:91-93 | the first k pages hold exactly the first 9k products |
| AppView.LineOf | frontend/front/src/App.tsx:171 | `find` gives the first line with that product id, or none exactly when no line has it |
| AppView.Bump | frontend/front/src/App.tsx:176-178 | every line with that id gets one more unit; the others stay |
| AppView.AddToCart | frontend/front/src/App.tsx:170-179 | the cart gains a line only for a new product and is never empty afterwards |
| AppView.AddToCartLines | frontend/front/src/App.tsx:170-179 | a new product is appended with one unit; an existing line gets one more unit and keeps its first product value |
| AppView.AddToCartWellFormed | frontend/front/src/App.tsx:170-179 | one line per product and at least one unit per line are kept |
| AppView.AddToCartTotals | frontend/front/src/App.tsx:65-70 | one add raises the item total and that product's units by one, leaves other products alone, and raises the amount by the charged price |
| AppView.AddTwice | frontend/front/src/App.tsx:170-179 | adding the same new product twice leaves one line with two units |
| AppView.BumpTotals | frontend/front/src/App.tsx:70 | incrementing raises the total units by the number of matching lines |
| AppView.BumpAmount | frontend/front/src/App.tsx:65-68 | incrementing raises the amount by the prices of the matching lines |
| AppView.PriceSumUnique | frontend/front/src/App.tsx:65-68 | with one line per id, those prices are the price on that id's line |
| AppView.CountOf | frontend/front/src/App.tsx:176-178 | no line of that id exactly when the count is 0 |
| AppView.CountOfUnique | frontend/front/src/App.tsx:176-178 | a well-formed cart has at most one line per id |
| AppView.NextSlide | frontend/front/src/App.tsx:292-296 | the next index stays within the images |
| AppView.PrevSlide | frontend/front/src/App.tsx:298-302 | the previous index stays within the images |
| AppView.SlidesAreInverse | frontend/front/src/App.tsx:292-302 | the two steps undo each other, and each wraps at the ends |
| AppView.TotalCartAmount | frontend/front/src/App.tsx:65-68 | the `reduce` of price times quantity over the lines; `AddToCartTotals` proves one addition raises it by the charged price |
| AppView.TotalCartItems | frontend/front/src/App.tsx:70 | the `reduce` of quantities over the lines; `AddToCartTotals` proves one addition raises it by 1 |
| AppState.App.constructor | frontend/front/src/App.tsx:44-63 | the first render's values, with no timer pending |
| AppState.App.LoadSounds | frontend/front/src/App.tsx:355-361 | the easter-egg sounds become available |
| AppState.App.OpenFilters | frontend/front/src/App.tsx:400 | the filters panel opens |
| AppState.App.CloseFilters | frontend/front/src/App.tsx:429 | the filters panel closes |
| AppState.App.CloseSidePanels | frontend/front/src/App.tsx:410-420 | the overlay closes both side panels |
| AppState.App.SetSearchTerm | frontend/front/src/App.tsx:430 | the search text becomes the hook's search |
| AppState.App.SetBrandFilter | frontend/front/src/App.tsx:431 | the brand text becomes the hook's brand |
| AppState.App.SetCategoryFilter | frontend/front/src/App.tsx:432 | the category text becomes the hook's category |
| AppState.App.SetAlphabeticalOrder | frontend/front/src/App.tsx:433 | the price order is kept, and a chosen alphabetical order decides the query |
| AppState.App.SetPriceOrder | frontend/front/src/App.tsx:434 | the alphabetical order is kept; the price order decides only without one |
| AppState.App.ClearFilters | frontend/front/src/App.tsx:141-147 | all three filter texts become empty and both orders become "none"; the invariant is kept |
| AppState.App.OpenProduct | frontend/front/src/App.tsx:149-157 | a pending fade is cancelled, the product is shown from its first image |
| AppState.App.CloseProduct | frontend/front/src/App.tsx:159-167 | the fade starts once; ignored with no product or while fading |
| AppState.App.FireModalCloseTimer | frontend/front/src/App.tsx:162-166 | the fade ends with no product selected |
| AppState.App.AddToCart | frontend/front/src/App.tsx:169-182 | the cart takes the updater's result, one more item, the badge lit and the animation tick advanced |
| AppState.App.OpenCart | frontend/front/src/App.tsx:184-187 | the cart opens and the badge clears |
| AppState.App.CloseCart | frontend/front/src/App.tsx:442 | the cart closes |
| AppState.App.OpenCheckoutMock | frontend/front/src/App.tsx:197-218 | ignored with an empty cart; otherwise fades cancelled, card details and credits closed, easter egg reset, cart replaced by checkout |
| AppState.App.CloseCheckoutMock | frontend/front/src/App.tsx:220-235 | ignored unless open and steady; otherwise card details closed without touching their timer, easter egg reset, fade started |
| AppState.App.FireCheckoutCloseTimer | frontend/front/src/App.tsx:230-234 | the checkout fade ends with the checkout closed |
| AppState.App.OpenCardInfoModal | frontend/front/src/App.tsx:237-244 | a pending fade is cancelled and the card details show |
| AppState.App.CloseCardInfoModal | frontend/front/src/App.tsx:246-254 | the fade starts once; ignored when closed or fading |
| AppState.App.FireCardInfoCloseTimer | frontend/front/src/App.tsx:249-253 | the card-details fade ends with them closed |
| AppState.App.HandleHappyPaymentClick | frontend/front/src/App.tsx:256-290 | ignored without sounds; steps 0 and 1 advance and restart the reset timer; step 2 returns to 0 and waits for the note to end |
| AppState.App.FireEasterEggResetTimer | frontend/front/src/App.tsx:286-289 | two seconds of silence reset the melody |
| AppState.App.FinalCueEnded | frontend/front/src/App.tsx:276-281 | the last note's end closes the checkout and opens the credits |
| AppState.App.CloseCredits | frontend/front/src/App.tsx:459 | the credits close |
| AppState.App.GoNextSlide | frontend/front/src/App.tsx:292-296 | the next image, wrapping; nothing without a product |
| AppState.App.GoPrevSlide | frontend/front/src/App.tsx:298-302 | the previous image, wrapping; nothing without a product |
| AppState.App.HandleKeyDown | frontend/front/src/App.tsx:312-376 | arrows move the carousel only with a product shown, and Escape closes the product; in the checkout, Escape closes the card details first (leaving the checkout as it is), and otherwise closes the checkout and resets the easter egg; Escape leaves the checkout and card-details fields alone when the checkout is not open or is already fading with no card details, and the product-modal fields alone when no product is shown; only the modal, carousel, checkout, card-details and easter-egg fields can change (cart, filters, panels and credits never do); other keys change nothing |
| AppState.HandleImageError | frontend/front/src/App.tsx:304-310 | a failing image switches to a non-empty fallback once, and never again |
| AppState.MainImageFallsBackOnce | frontend/front/src/App.tsx:304-310 | a main image that keeps failing ends on its bundled fallback |
| AppState.EasterEggOpensCredits | frontend/front/src/App.tsx:256-290 | three clicks and the end of the last note replace the checkout with the credits |
| AppState.EasterEggPauseStartsOver | frontend/front/src/App.tsx:285-289 | a pause after two notes resets the melody without arming the credits |
| CatalogueContract.HexPrefix | backend/src/main/java/com/catalogo/backend/controller/ProductController.java:47-51 | finds `0x`, `0X` (two characters) or `#` (one) at the given position, within the text |
| CatalogueContract.InIntRange | backend/src/main/java/com/catalogo/backend/controller/ProductController.java:47-51 | a sign and magnitude give a value exactly when the signed value lies in the `Integer` range, and then it is that value |
| CatalogueContract.ParseInteger | backend/src/main/java/com/catalogo/backend/controller/ProductController.java:47-51 | `NumberUtils.parseNumber` for `Integer` yields only values in the `Integer` range, and nothing for empty text |
| CatalogueContract.NumberParam | backend/src/main/java/com/catalogo/backend/controller/ProductController.java:47-51 | missing, empty or whitespace-only text is absent (the default or null, which the service reads alike); any other text either converts, to a value in the `Integer` range, or is malformed |
| CatalogueContract.DigitsParam | backend/src/main/java/com/catalogo/backend/controller/ProductController.java:47-51 | a plain digit string converts to its value exactly when it fits in an `Integer`, and is malformed when larger |
| CatalogueContract.UnsignedDigitsParse | backend/src/main/java/com/catalogo/backend/controller/ProductController.java:47-51 | unsigned decimal digits parse to their value when it fits, and to nothing when larger |
| CatalogueContract.NegatedDigitsParse | backend/src/main/java/com/catalogo/backend/controller/ProductController.java:47-51 | a minus and decimal digits parse to the negated value when it fits down to `Integer.MIN_VALUE`, and to nothing beyond |
| CatalogueContract.ParseIntegerReadsIntToString | backend/src/main/java/com/catalogo/backend/controller/ProductController.java:47-51 | every `Integer`'s decimal text parses back to it |
| CatalogueContract.NumberParamIgnoresWhitespace | backend/src/main/java/com/catalogo/backend/controller/ProductController.java:47-51 | whitespace inserted anywhere in a parameter (`page= 5`, `page=1 0`) does not change the conversion |
| CatalogueContract.HexParamExample | backend/src/main/java/com/catalogo/backend/controller/ProductController.java:47-51 | `0x1F` converts to 31 through `Integer.decode` |
| CatalogueContract.HashParamExample | backend/src/main/java/com/catalogo/backend/controller/ProductController.java:47-51 | `#1f` converts to 31 |
| CatalogueContract.SignedParamExamples | backend/src/main/java/com/catalogo/backend/controller/ProductController.java:47-51 | `-3` converts to -3 and `+7` to 7 |
| CatalogueContract.PlusHexIsMalformed | backend/src/main/java/com/catalogo/backend/controller/ProductController.java:47-51 | `+0x1F` is malformed: only a minus may precede a hex prefix |
| CatalogueContract.EmptyNumberExamples | backend/src/main/java/com/catalogo/backend/controller/ProductController.java:47-51 | text that is only whitespace (a space, two tabs) is absent; `0x` with no digits is malformed |
| CatalogueContract.NumberTexts | frontend/front/src/services/productsService.ts:17-18 | the page "0" and size "100" the view sends convert to 0 and 100 |
| CatalogueContract.ViewSortReachesService | frontend/front/src/App.tsx:72-80 | every sort the view produces passes the controller's patterns and selects the intended key and direction |
| CatalogueContract.QueryStringCarriesViewRequest | frontend/front/src/services/productsService.ts:16-24 | the query string carries exactly the view's filters, sort, page 0 and size 100 |
| CatalogueContract.ViewRequestIsAccepted | backend/src/main/java/com/catalogo/backend/controller/ProductController.java:33-57 | the controller accepts the view's request and hands the service the intended query |
| CatalogueContract.ViewRequestsAreAccepted | frontend/front/src/hooks/useProducts.ts:44-64 | no request the view sends is rejected; the answer is the first page of up to 100 matches for the view's filters and sort |

The class invariants `AppState.App.Valid` and `UseProducts.ProductsHook.Valid`
are preserved by every method of their classes. `App.Valid` holds that:

- the easter-egg step is 0, 1 or 2, and a reset timer is pending exactly when
  the step is not 0;
- a fade-out timer is pending while its surface fades, and never while that
  surface is open and steady;
- the carousel index is within the selected product's images;
- the checkout and the credits are never open together;
- the checkout and the cart badge imply a non-empty cart;
- the cart has one line per product, each with at least one unit.

`ProductsHook.Valid` holds that:

- only the newest load can be active;
- while the active load runs, the list shows as loading with no error;
- an error always comes with an empty list.

## Left out

- I/O: reading `catalog.json` is the argument of `Repository.Init`. The HTTP
  exchange is the `outcome` argument of `FetchProducts` and `Settle`. A failed
  `catalog.json` read (`IllegalStateException`) is not modelled.
- Spring wiring, CORS, the error body's timestamp and request path, and the
  JSON encoding of responses are not modelled.
- `model/Product.java` and `dto/ProductListResponse.java` are not part of
  this model; their fields are taken from how the service uses them.
- The scroll animation (`scrollToPanel`, easing, reduced motion) and
  `formatPrice` are presentation only and left out.
- Audio playback is left out, including `playCashRegisterSound`. Play is
  assumed to start; `FinalCueEnded` is the `ended` event, which the
  environment may never send.
- Real time is left out: timers fire only when their `Fire…` method is
  called. Cleanup of timers and sounds on unmount is not modelled.
- `ProductService.SearchProducts`: `int` overflow of `page * size` is not
  modelled; integers are unbounded.
- `ProductService.TotalPages`: the ceiling is exact; the double division of
  the source gives the same result for any realistic count.
- `Text.Lower` lowers the ASCII letters A-Z only. The backend's
  `toLowerCase(Locale.ROOT)` also folds non-ASCII letters, so a search for
  "CÁMARA" or a brand filter "ÉLITE" matches there but not in the model. It
  can also change a string's length (U+0130 becomes two characters), which
  the model never does.
- `Text.Trim` is Java's `trim()`, used for the front end's `trim()` too.
  JavaScript's `trim()` differs: it also strips Unicode spaces (U+00A0,
  U+2028, …) and keeps the control characters U+0001-U+001F that Java strips.
- `ProductOrdering.CompareText` compares characters as Unicode scalar
  values. Java's `String.compareTo` compares UTF-16 code units, so the two
  orders differ between supplementary characters (above U+FFFF) and
  characters in U+E000-U+FFFF.
- `UseProducts.FallbackNumber` uses exact integers. `Number` of a very long
  digit string loses precision or becomes `Infinity` (which falls back to 1);
  this is not modelled.
- `CatalogueContract.NumberParam` reads ASCII digits only. `Integer.valueOf`
  and `Integer.decode` also accept other Unicode decimal digits (for example
  fullwidth ones) and fullwidth hex letters; the front end never sends them.
  The value is taken after URL decoding, which is not modelled.
  Whitespace-only text is modelled as absent, so it takes the default, while
  Spring passes null; the service clamps a null page or size to the same
  defaults, 0 and 10.
- `ExceptionHandler.Handle` reports the first message of a constraint
  violation set in parameter order. In Java the set's iteration order is
  unspecified.
- Prices are exact integers on both sides. `BigDecimal` scale and
  JavaScript floating point are not modelled.
- `UseProducts.ProductsHook.Settle` assumes that each load settles once. A
  second settlement of the active load is ignored.
- Opening a product whose image list is empty is excluded by
  `AppState.App.OpenProduct`'s precondition. Every mapped product has three
  images; in the source an empty list would make the carousel index `NaN`.
