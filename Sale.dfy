/**
 * The sale listing: the request it sends for one page of products (a count query
 * and a row query built from the same filters, a sort order and a row range), the
 * page-count arithmetic, the pagination bar, and the handlers that update the
 * filters, the sort order and the current page.
 */
module Sale {
  import opened Wrappers
  import ProductFilters

  const ProductsPerPage: int := 12

  // ---------------------------------------------------------------------------
  // Page arithmetic

  /** A missing count is treated as 0. */
  function CountOrZero(count: Option<nat>): nat {
    if count.Some? then count.value else 0
  }

  /** The ceiling of count / 12: the fewest pages of 12 that hold every counted row. */
  function TotalPages(count: Option<nat>): (r: nat)
    ensures r * ProductsPerPage >= CountOrZero(count)
    ensures (r - 1) * ProductsPerPage < CountOrZero(count)
    ensures count.None? ==> r == 0
  {
    (CountOrZero(count) + ProductsPerPage - 1) / ProductsPerPage
  }

  /** An inclusive range of row indices. */
  datatype RowRange = RowRange(from: int, to: int)

  /** Page p asks for rows (p - 1) * 12 through (p - 1) * 12 + 11. */
  function PageRows(page: int): (r: RowRange)
    ensures r.to - r.from + 1 == ProductsPerPage
    ensures page >= 1 ==> r.from >= 0
  {
    var from := (page - 1) * ProductsPerPage;
    RowRange(from, from + ProductsPerPage - 1)
  }

  /** Consecutive pages are contiguous: the next page starts right after this one ends. */
  lemma ConsecutivePagesContiguous(page: int)
    ensures PageRows(page + 1).from == PageRows(page).to + 1
  {
  }

  /** Every row index lies on exactly one page, page n / 12 + 1, so pages never overlap. */
  lemma RowOnExactlyOnePage(n: nat, page: int)
    ensures PageRows(n / ProductsPerPage + 1).from <= n <= PageRows(n / ProductsPerPage + 1).to
    ensures PageRows(page).from <= n <= PageRows(page).to ==> page == n / ProductsPerPage + 1
  {
    var q := n / ProductsPerPage;
    assert q * ProductsPerPage <= n < q * ProductsPerPage + ProductsPerPage;
  }

  /** The pages 1..TotalPages are exactly those that start at a counted row. */
  lemma PagesCoverCount(count: nat, page: int)
    requires page >= 1
    ensures page <= TotalPages(Some(count)) <==> PageRows(page).from < count
  {
    var t := TotalPages(Some(count));
    if page <= t {
      assert (page - 1) * ProductsPerPage <= (t - 1) * ProductsPerPage;
    } else {
      assert (page - 1) * ProductsPerPage >= t * ProductsPerPage;
    }
  }

  // ---------------------------------------------------------------------------
  // The request: a list of abstract query steps

  datatype Column = CreatedAt | Price

  datatype QueryStep =
    | CategoryIs(categoryId: string)
    | PriceAtLeast(bound: real)
    | PriceAtMost(bound: real)
    | NameOrDescriptionContains(term: string)
    | OrderBy(column: Column, ascending: bool)
    | Rows(range: RowRange)

  datatype SaleFilters = SaleFilters(category: string, minPrice: real, maxPrice: real, search: string)

  const InitialFilters: SaleFilters := SaleFilters("all", 0.0, 1000.0, "")

  /** The category filter applies only to a non-empty category other than "all". */
  predicate FiltersCategory(f: SaleFilters) {
    f.category != "" && f.category != "all"
  }

  /** The filter steps both queries add, in the order the page adds them. */
  function FilterSteps(f: SaleFilters): (r: seq<QueryStep>)
    ensures forall k :: 0 <= k < |r| ==> !r[k].OrderBy? && !r[k].Rows?
    ensures PriceAtLeast(f.minPrice) in r && PriceAtMost(f.maxPrice) in r
    ensures CategoryIs(f.category) in r <==> FiltersCategory(f)
    ensures NameOrDescriptionContains(f.search) in r <==> f.search != ""
  {
    (if FiltersCategory(f) then [CategoryIs(f.category)] else [])
    + [PriceAtLeast(f.minPrice), PriceAtMost(f.maxPrice)]
    + (if f.search != "" then [NameOrDescriptionContains(f.search)] else [])
  }

  /** "price-asc" sorts by price ascending, "price-desc" descending; anything else is newest first. */
  function OrderFor(sortOrder: string): (r: QueryStep)
    ensures r.OrderBy?
    ensures r.column == Price <==> sortOrder == "price-asc" || sortOrder == "price-desc"
    ensures r.ascending <==> sortOrder == "price-asc"
  {
    match sortOrder
    case "newest" => OrderBy(CreatedAt, false)
    case "price-asc" => OrderBy(Price, true)
    case "price-desc" => OrderBy(Price, false)
    case _ => OrderBy(CreatedAt, false)
  }

  /** A product row as the filters see it. */
  datatype ProductRow = ProductRow(categoryId: string, price: real, name: string, description: string)

  predicate Contains(text: string, term: string) {
    exists i :: 0 <= i <= |text| && term <= text[i..]
  }

  /** Whether one step lets a row through; ordering and range steps shape the answer, they do not select. */
  predicate Holds(step: QueryStep, p: ProductRow) {
    match step
    case CategoryIs(c) => p.categoryId == c
    case PriceAtLeast(b) => p.price >= b
    case PriceAtMost(b) => p.price <= b
    case NameOrDescriptionContains(t) => Contains(p.name, t) || Contains(p.description, t)
    case OrderBy(_, _) => true
    case Rows(_) => true
  }

  /** A query selects a row when every one of its steps lets the row through. */
  predicate Selects(q: seq<QueryStep>, p: ProductRow)
    decreases |q|
  {
    q == [] || (Holds(q[0], p) && Selects(q[1..], p))
  }

  /** The rows the filters are meant to keep, stated without query steps. */
  predicate MatchesFilters(f: SaleFilters, p: ProductRow) {
    && (FiltersCategory(f) ==> p.categoryId == f.category)
    && f.minPrice <= p.price <= f.maxPrice
    && (f.search != "" ==> Contains(p.name, f.search) || Contains(p.description, f.search))
  }

  lemma {:induction false} SelectsAppend(a: seq<QueryStep>, b: seq<QueryStep>, p: ProductRow)
    ensures Selects(a + b, p) <==> Selects(a, p) && Selects(b, p)
    decreases |a|
  {
    if a != [] {
      assert (a + b)[0] == a[0];
      assert (a + b)[1..] == a[1..] + b;
      SelectsAppend(a[1..], b, p);
    } else {
      assert a + b == b;
    }
  }

  lemma SelectsSingle(step: QueryStep, p: ProductRow)
    ensures Selects([step], p) <==> Holds(step, p)
  {
    assert [step][1..] == [];
  }

  /** The filter steps select exactly the rows the filters describe. */
  lemma FilterStepsMeaning(f: SaleFilters, p: ProductRow)
    ensures Selects(FilterSteps(f), p) <==> MatchesFilters(f, p)
  {
    var cat := if FiltersCategory(f) then [CategoryIs(f.category)] else [];
    var prices := [PriceAtLeast(f.minPrice), PriceAtMost(f.maxPrice)];
    var search := if f.search != "" then [NameOrDescriptionContains(f.search)] else [];
    SelectsAppend(cat + prices, search, p);
    SelectsAppend(cat, prices, p);
    assert prices == [PriceAtLeast(f.minPrice)] + [PriceAtMost(f.maxPrice)];
    SelectsAppend([PriceAtLeast(f.minPrice)], [PriceAtMost(f.maxPrice)], p);
    SelectsSingle(PriceAtLeast(f.minPrice), p);
    SelectsSingle(PriceAtMost(f.maxPrice), p);
    SelectsSingle(NameOrDescriptionContains(f.search), p);
    SelectsSingle(CategoryIs(f.category), p);
  }

  /** The filter steps, added one by one to a fresh query, as the page does for each of its two queries. */
  method AddFilters(f: SaleFilters) returns (query: seq<QueryStep>)
    ensures query == FilterSteps(f)
  {
    query := [];
    if f.category != "" && f.category != "all" {
      query := query + [CategoryIs(f.category)];
    }
    query := query + [PriceAtLeast(f.minPrice)];
    query := query + [PriceAtMost(f.maxPrice)];
    if f.search != "" {
      query := query + [NameOrDescriptionContains(f.search)];
    }
  }

  /**
   * The request for one page, built step by step as the page builds it: the
   * count query from the filters, then the row query from the same filters,
   * the sort order and the page's row range.
   */
  method FetchSaleProductsRequest(f: SaleFilters, sortOrder: string, currentPage: int)
    returns (countQuery: seq<QueryStep>, rowQuery: seq<QueryStep>)
    ensures countQuery == FilterSteps(f)
    ensures rowQuery == countQuery + [OrderFor(sortOrder), Rows(PageRows(currentPage))]
    ensures forall p :: Selects(countQuery, p) <==> MatchesFilters(f, p)
    ensures forall p :: Selects(rowQuery, p) <==> Selects(countQuery, p)
  {
    countQuery := AddFilters(f);
    rowQuery := AddFilters(f);

    if sortOrder == "newest" {
      rowQuery := rowQuery + [OrderBy(CreatedAt, false)];
    } else if sortOrder == "price-asc" {
      rowQuery := rowQuery + [OrderBy(Price, true)];
    } else if sortOrder == "price-desc" {
      rowQuery := rowQuery + [OrderBy(Price, false)];
    } else {
      rowQuery := rowQuery + [OrderBy(CreatedAt, false)];
    }

    var from := (currentPage - 1) * ProductsPerPage;
    var to := from + ProductsPerPage - 1;
    rowQuery := rowQuery + [Rows(RowRange(from, to))];

    assert countQuery == FilterSteps(f);
    assert rowQuery == countQuery + [OrderFor(sortOrder), Rows(PageRows(currentPage))];
    forall p | true
      ensures Selects(countQuery, p) <==> MatchesFilters(f, p)
      ensures Selects(rowQuery, p) <==> Selects(countQuery, p)
    {
      FilterStepsMeaning(f, p);
      OrderAndRangeKeepSelection(countQuery, OrderFor(sortOrder), PageRows(currentPage), p);
    }
  }

  /** Appending an order and a row range never changes which rows a query selects. */
  lemma OrderAndRangeKeepSelection(q: seq<QueryStep>, order: QueryStep, range: RowRange, p: ProductRow)
    requires order.OrderBy?
    ensures Selects(q + [order, Rows(range)], p) <==> Selects(q, p)
  {
    SelectsAppend(q, [order, Rows(range)], p);
    assert [order, Rows(range)] == [order] + [Rows(range)];
    SelectsAppend([order], [Rows(range)], p);
    SelectsSingle(order, p);
    SelectsSingle(Rows(range), p);
  }

  // ---------------------------------------------------------------------------
  // The pagination bar

  /** How many middle page numbers are considered: min(5, totalPages - 2). */
  function WindowSize(totalPages: int): (r: int)
    requires totalPages >= 2
    ensures 0 <= r <= 5 && r <= totalPages - 2
    ensures r == 5 || r == totalPages - 2
  {
    if 5 < totalPages - 2 then 5 else totalPages - 2
  }

  /** The page's window rule, and the corrected one (see the README's findings). */
  datatype WindowRule = AsWritten | Corrected

  /** Where the window starts once the current page is near the end. */
  function EndWindowStart(totalPages: int, rule: WindowRule): int {
    match rule
    case AsWritten => totalPages - 4
    case Corrected => if totalPages - 4 > 2 then totalPages - 4 else 2
  }

  /** The first candidate middle page: 2 near the start, the end window near the end, else two before the current page. */
  function WindowStart(currentPage: int, totalPages: int, rule: WindowRule): int {
    if currentPage <= 3 then 2
    else if currentPage >= totalPages - 2 then EndWindowStart(totalPages, rule)
    else currentPage - 2
  }

  /** The i-th candidate middle page; the candidates are consecutive pages from the window's start. */
  function PageAt(currentPage: int, totalPages: int, i: int, rule: WindowRule): (r: int)
    ensures rule == Corrected && i >= 0 ==> r >= 2
    ensures 3 < currentPage < totalPages - 2 ==> r == currentPage - 2 + i
  {
    WindowStart(currentPage, totalPages, rule) + i
  }

  /** Strictly increasing: every page comes after the one before it, so none repeats. */
  predicate Increasing(pages: seq<int>) {
    forall j, k :: 0 <= j < k < |pages| ==> pages[j] < pages[k]
  }

  /** Appending a page above all listed ones keeps the list increasing. */
  lemma AppendAboveKeepsIncreasing(pages: seq<int>, page: int)
    requires Increasing(pages)
    requires forall k :: 0 <= k < |pages| ==> pages[k] < page
    ensures Increasing(pages + [page])
  {
  }

  /** The first n candidates, keeping those strictly between 1 and totalPages, in order. */
  function MiddlePages(currentPage: int, totalPages: int, n: nat, rule: WindowRule): (r: seq<int>)
    ensures |r| <= n
    ensures forall k :: 0 <= k < |r| ==> 1 < r[k] < totalPages
    ensures forall page :: page in r <==>
              WindowStart(currentPage, totalPages, rule) <= page < WindowStart(currentPage, totalPages, rule) + n
              && 1 < page < totalPages
    ensures forall k :: 0 <= k < |r| ==>
              WindowStart(currentPage, totalPages, rule) <= r[k] < WindowStart(currentPage, totalPages, rule) + n
    ensures Increasing(r)
  {
    if n == 0 then []
    else
      var front := MiddlePages(currentPage, totalPages, n - 1, rule);
      var page := PageAt(currentPage, totalPages, n - 1, rule);
      if 1 < page < totalPages then
        AppendAboveKeepsIncreasing(front, page);
        front + [page]
      else
        front
  }

  datatype PaginationBar = PaginationBar(
    previous: Option<int>,       // the page the previous control moves to, if it moves
    leadingEllipsis: bool,
    middle: seq<int>,
    trailingEllipsis: bool,
    last: int,
    next: Option<int>)           // the page the next control moves to, if it moves

  /** Previous moves only when currentPage > 1. */
  function PreviousTarget(currentPage: int): (r: Option<int>)
    ensures r.Some? <==> currentPage > 1
    ensures r.Some? ==> r.value == currentPage - 1 && r.value >= 1
  {
    if currentPage > 1 then Some(currentPage - 1) else None
  }

  /** Next moves only when currentPage < totalPages. */
  function NextTarget(currentPage: int, totalPages: int): (r: Option<int>)
    ensures r.Some? <==> currentPage < totalPages
    ensures r.Some? ==> r.value == currentPage + 1 && r.value <= totalPages
  {
    if currentPage < totalPages then Some(currentPage + 1) else None
  }

  /** The bar, shown only when there is more than one page. */
  function Pagination(currentPage: int, totalPages: int, rule: WindowRule): (r: Option<PaginationBar>)
    ensures r.Some? <==> totalPages > 1
    ensures r.Some? ==> (r.value.leadingEllipsis <==> currentPage > 3)
    ensures r.Some? ==> (r.value.trailingEllipsis <==> currentPage < totalPages - 2)
    ensures r.Some? ==> |r.value.middle| <= 5 && |r.value.middle| <= totalPages - 2
    ensures r.Some? ==> forall k :: 0 <= k < |r.value.middle| ==> 1 < r.value.middle[k] < totalPages
  {
    if totalPages <= 1 then None
    else Some(PaginationBar(
      PreviousTarget(currentPage),
      currentPage > 3,
      MiddlePages(currentPage, totalPages, WindowSize(totalPages), rule),
      currentPage < totalPages - 2,
      totalPages,
      NextTarget(currentPage, totalPages)))
  }

  /** The page numbers that get a link: the first page, the middle pages, the last page. */
  function Links(bar: PaginationBar): seq<int> {
    [1] + bar.middle + [bar.last]
  }

  /** Both controls and every page link only ever lead to a page between 1 and totalPages. */
  lemma ControlsStayInRange(currentPage: int, totalPages: int, rule: WindowRule)
    requires 1 <= currentPage <= totalPages && totalPages > 1
    ensures var bar := Pagination(currentPage, totalPages, rule).value;
      (bar.previous.Some? ==> 1 <= bar.previous.value <= totalPages) &&
      (bar.next.Some? ==> 1 <= bar.next.value <= totalPages) &&
      (forall k :: 0 <= k < |Links(bar)| ==> 1 <= Links(bar)[k] <= totalPages)
  {
  }

  /** As written, with five pages and the fourth current, page 4 gets no link. */
  lemma CurrentPageUnlinkedAsWritten()
    ensures Pagination(4, 5, AsWritten) == Some(PaginationBar(Some(3), true, [2, 3], false, 5, Some(5)))
    ensures 4 !in Links(Pagination(4, 5, AsWritten).value)
  {
    assert WindowSize(5) == 3;
    AsWrittenMiddlePagesOfFive();
    assert Links(Pagination(4, 5, AsWritten).value) == [1, 2, 3, 5];
  }

  /** As written, on page 4 of 5 the three candidates are 1, 2 and 3, and only 2 and 3 are middle pages. */
  lemma AsWrittenMiddlePagesOfFive()
    ensures MiddlePages(4, 5, 3, AsWritten) == [2, 3]
  {
    AsWrittenFirstMiddlePageOfFive();
    MiddlePagesStep(4, 5, 2, AsWritten);
    assert PageAt(4, 5, 2, AsWritten) == 3;
    assert [2] + [3] == [2, 3];
  }

  /** As written, on page 4 of 5 the first two candidates, 1 and 2, leave only page 2. */
  lemma AsWrittenFirstMiddlePageOfFive()
    ensures MiddlePages(4, 5, 2, AsWritten) == [2]
  {
    assert WindowStart(4, 5, AsWritten) == 1;
    MiddlePagesStep(4, 5, 0, AsWritten);
    assert MiddlePages(4, 5, 1, AsWritten) == [];
    MiddlePagesStep(4, 5, 1, AsWritten);
  }

  /** One more candidate adds at most that candidate, at the end. */
  lemma MiddlePagesStep(currentPage: int, totalPages: int, n: nat, rule: WindowRule)
    ensures var page := PageAt(currentPage, totalPages, n, rule);
      MiddlePages(currentPage, totalPages, n + 1, rule)
        == MiddlePages(currentPage, totalPages, n, rule) + (if 1 < page < totalPages then [page] else [])
  {
  }

  /** The index of the candidate that is the current page, when it is a middle page. */
  function CurrentIndex(currentPage: int, totalPages: int): int {
    if currentPage <= 3 then currentPage - 2
    else if currentPage >= totalPages - 2 then currentPage - EndWindowStart(totalPages, Corrected)
    else 2
  }

  /** With the corrected window, the current page always gets a link. */
  lemma CurrentPageAlwaysLinked(currentPage: int, totalPages: int)
    requires 1 <= currentPage <= totalPages && totalPages > 1
    ensures currentPage in Links(Pagination(currentPage, totalPages, Corrected).value)
  {
    var bar := Pagination(currentPage, totalPages, Corrected).value;
    if 1 < currentPage < totalPages {
      var i := CurrentIndex(currentPage, totalPages);
      assert 0 <= i < WindowSize(totalPages);
      assert PageAt(currentPage, totalPages, i, Corrected) == currentPage;
      assert currentPage in bar.middle;
    }
  }

  /**
   * With the corrected window, every page between the first and the last that has
   * no link lies behind an ellipsis on its own side of the current page.
   */
  lemma HiddenPagesBehindEllipsis(currentPage: int, totalPages: int, page: int)
    requires 1 <= currentPage <= totalPages && totalPages > 1
    requires 1 < page < totalPages
    requires page !in Pagination(currentPage, totalPages, Corrected).value.middle
    ensures var bar := Pagination(currentPage, totalPages, Corrected).value;
      (page < currentPage && bar.leadingEllipsis) || (page > currentPage && bar.trailingEllipsis)
  {
    var i := page - WindowStart(currentPage, totalPages, Corrected);
    ghost var candidate := PageAt(currentPage, totalPages, i, Corrected);
  }

  // ---------------------------------------------------------------------------
  // Page state and handlers

  /** The keys one filter change supplies; absent keys keep their value. */
  datatype FilterPatch = FilterPatch(category: Option<string>, minPrice: Option<real>, maxPrice: Option<real>, search: Option<string>)

  /** Object spread of the patch over the current filters: only supplied keys are overwritten. */
  function Merge(f: SaleFilters, patch: FilterPatch): (r: SaleFilters)
    ensures patch.category.Some? ==> r.category == patch.category.value
    ensures patch.category.None? ==> r.category == f.category
    ensures patch.minPrice.Some? ==> r.minPrice == patch.minPrice.value
    ensures patch.minPrice.None? ==> r.minPrice == f.minPrice
    ensures patch.maxPrice.Some? ==> r.maxPrice == patch.maxPrice.value
    ensures patch.maxPrice.None? ==> r.maxPrice == f.maxPrice
    ensures patch.search.Some? ==> r.search == patch.search.value
    ensures patch.search.None? ==> r.search == f.search
  {
    SaleFilters(
      if patch.category.Some? then patch.category.value else f.category,
      if patch.minPrice.Some? then patch.minPrice.value else f.minPrice,
      if patch.maxPrice.Some? then patch.maxPrice.value else f.maxPrice,
      if patch.search.Some? then patch.search.value else f.search)
  }

  /** Applying the same change twice is the same as applying it once. */
  lemma MergeIdempotent(f: SaleFilters, patch: FilterPatch)
    ensures Merge(Merge(f, patch), patch) == Merge(f, patch)
  {
  }

  /**
   * The filter panel emits the keys price, categories and brands; none of them is a
   * key of the sale filters, so as a patch it supplies none of their keys.
   */
  function PatchFromPanel(emitted: ProductFilters.EmittedFilter): FilterPatch {
    FilterPatch(None, None, None, None)
  }

  /** A change made in the filter panel never alters the sale queries. */
  lemma PanelChangeLeavesQueries(f: SaleFilters, emitted: ProductFilters.EmittedFilter)
    ensures FilterSteps(Merge(f, PatchFromPanel(emitted))) == FilterSteps(f)
  {
  }

  /** The answer to the count query. */
  datatype CountResponse = CountOk(count: Option<nat>) | CountFailed

  class SalePage {
    var filters: SaleFilters
    var sortOrder: string
    var currentPage: int
    var totalPages: int

    constructor ()
      ensures filters == InitialFilters && sortOrder == "newest" && currentPage == 1 && totalPages == 1
    {
      filters := InitialFilters;
      sortOrder := "newest";
      currentPage := 1;
      totalPages := 1;
    }

    method HandleFilterChange(patch: FilterPatch)
      modifies this`filters
      ensures filters == Merge(old(filters), patch)
    {
      filters := Merge(filters, patch);
    }

    /** Back to page 1, then the request for that page under the current filters and sort order. */
    method HandleApplyFilters() returns (countQuery: seq<QueryStep>, rowQuery: seq<QueryStep>)
      modifies this`currentPage
      ensures currentPage == 1
      ensures countQuery == FilterSteps(filters)
      ensures rowQuery == countQuery + [OrderFor(sortOrder), Rows(RowRange(0, ProductsPerPage - 1))]
    {
      currentPage := 1;
      countQuery, rowQuery := FetchSaleProductsRequest(filters, sortOrder, currentPage);
    }

    method HandleSortChange(value: string)
      modifies this`sortOrder, this`currentPage
      ensures sortOrder == value && currentPage == 1
    {
      sortOrder := value;
      currentPage := 1;
    }

    method HandlePageChange(page: int)
      modifies this`currentPage
      ensures currentPage == page
    {
      currentPage := page;
    }

    /** A failed count leaves the page count as it was; otherwise it becomes the ceiling of count / 12. */
    method ReceiveCount(response: CountResponse)
      modifies this`totalPages
      ensures response.CountFailed? ==> totalPages == old(totalPages)
      ensures response.CountOk? ==> totalPages == TotalPages(response.count)
    {
      if response.CountOk? {
        totalPages := TotalPages(response.count);
      }
    }
  }
}
