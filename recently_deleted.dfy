/** The dashboard's recently-deleted list: ten rows a page, with Previous and
    Next buttons that keep the page number between 1 and the page count. */
module RecentlyDeleted {
  import opened Math
  import opened Wrappers

  const ITEMS_PER_PAGE: int := 10
  /** The length of the placeholder list the page count is taken from. */
  const MOCK_LENGTH: int := 50

  /** `Math.ceil(n / d)` for a non-negative `n` and positive `d`. */
  function CeilDiv(n: nat, d: nat): (c: nat)
    requires d > 0
    ensures (c - 1) * d < n <= c * d || (n == 0 && c == 0)
  {
    (n + d - 1) / d
  }

  /** The index `Array.prototype.slice` starts or stops at: a negative one
      counts from the end, and both are clamped into the array. */
  function SliceIndex(len: nat, k: int): (r: nat)
    ensures r <= len
  {
    if k < 0 then Max(len + k, 0) else Min(k, len)
  }

  /** `data.slice(start, end)`. */
  function JsSlice<T>(data: seq<T>, start: int, end: int): seq<T> {
    var s, e := SliceIndex(|data|, start), SliceIndex(|data|, end);
    if s >= e then [] else data[s..e]
  }

  /** The rows page `page` shows. */
  function PageSlice<T>(data: seq<T>, page: int): (r: seq<T>)
    requires page >= 1
    ensures |r| <= ITEMS_PER_PAGE
    ensures (page - 1) * ITEMS_PER_PAGE < |data| ==>
              r == data[(page - 1) * ITEMS_PER_PAGE..Min(page * ITEMS_PER_PAGE, |data|)]
    ensures (page - 1) * ITEMS_PER_PAGE >= |data| ==> r == []
  {
    JsSlice(data, (page - 1) * ITEMS_PER_PAGE, page * ITEMS_PER_PAGE)
  }

  /** Row `i` is the `i % 10`-th row of page `i / 10 + 1`. */
  lemma RowOnPage<T>(data: seq<T>, i: nat)
    requires i < |data|
    ensures var page := i / ITEMS_PER_PAGE + 1;
            i % ITEMS_PER_PAGE < |PageSlice(data, page)| && PageSlice(data, page)[i % ITEMS_PER_PAGE] == data[i]
  {
    var page := i / ITEMS_PER_PAGE + 1;
    assert (page - 1) * ITEMS_PER_PAGE == i - i % ITEMS_PER_PAGE;
  }

  /** What the component renders. */
  datatype View<T> = Loading | ErrorAlert | EmptyState | Table(rows: seq<T>)

  /** The list the component shows for a query state and a page. */
  function Render<T>(isLoading: bool, failed: bool, data: Option<seq<T>>, page: int): (v: View<T>)
    requires page >= 1
    ensures isLoading ==> v == Loading
    ensures !isLoading && failed ==> v == ErrorAlert
    ensures !isLoading && !failed ==> (v == EmptyState <==> data.None? || |data.value| == 0)
    ensures v.Table? ==> v.rows == PageSlice(data.value, page) && |v.rows| <= ITEMS_PER_PAGE
  {
    if isLoading then Loading
    else if failed then ErrorAlert
    else if data.None? || |data.value| == 0 then EmptyState
    else Table(PageSlice(data.value, page))
  }

  /** The current page and the page count the buttons clamp to. */
  class Pager {
    var currentPage: int
    const pageCount: int

    ghost predicate Valid()
      reads this
    {
      1 <= currentPage <= pageCount
    }

    /** `useState(1)`. */
    constructor (pageCount: int)
      requires pageCount >= 1
      ensures this.pageCount == pageCount && currentPage == 1
      ensures Valid()
    {
      this.pageCount := pageCount;
      currentPage := 1;
    }

    /** Previous is disabled exactly on the first page. */
    predicate PreviousDisabled()
      reads this
    {
      currentPage == 1
    }

    /** Next is disabled exactly on the last page. */
    predicate NextDisabled()
      reads this
    {
      currentPage == pageCount
    }

    /** `setCurrentPage(prev => Math.max(prev - 1, 1))`. */
    method Previous()
      requires Valid()
      modifies this
      ensures currentPage == Max(old(currentPage) - 1, 1)
      ensures Valid()
    {
      currentPage := Max(currentPage - 1, 1);
    }

    /** `setCurrentPage(prev => Math.min(prev + 1, pageCount))`. */
    method Next()
      requires Valid()
      modifies this
      ensures currentPage == Min(old(currentPage) + 1, pageCount)
      ensures Valid()
    {
      currentPage := Min(currentPage + 1, pageCount);
    }
  }

  /** The page count as written: taken from the 50-row placeholder list
      whatever the fetched data holds. */
  function AsWrittenPageCount(dataLength: nat): (c: int)
    ensures c == 5
  {
    CeilDiv(MOCK_LENGTH, ITEMS_PER_PAGE)
  }

  /** The page count of the fetched rows themselves. */
  function PageCount(dataLength: nat): (c: int)
    requires dataLength > 0
    ensures c >= 1
    ensures (c - 1) * ITEMS_PER_PAGE < dataLength <= c * ITEMS_PER_PAGE
  {
    CeilDiv(dataLength, ITEMS_PER_PAGE)
  }

  /** With the placeholder count, no page the buttons reach shows a row past
      the fiftieth, so with 60 fetched rows the last ten never appear; with
      12 rows, pages 3 to 5 are empty tables. */
  lemma AsWrittenHidesRows<T>(data: seq<T>, page: int)
    requires 1 <= page <= AsWrittenPageCount(|data|)
    ensures |data| >= MOCK_LENGTH ==> PageSlice(data, page) == data[(page - 1) * ITEMS_PER_PAGE..page * ITEMS_PER_PAGE]
    ensures |data| == 12 && page >= 3 ==> PageSlice(data, page) == []
  {
  }

  /** With the fetched rows' own page count every row is on a page the
      buttons reach, and every reachable page shows at least one row. */
  lemma EveryRowReachable<T>(data: seq<T>, i: nat, page: int)
    requires i < |data|
    requires 1 <= page <= PageCount(|data|)
    ensures 1 <= i / ITEMS_PER_PAGE + 1 <= PageCount(|data|)
    ensures PageSlice(data, i / ITEMS_PER_PAGE + 1)[i % ITEMS_PER_PAGE] == data[i]
    ensures |PageSlice(data, page)| > 0
  {
    RowOnPage(data, i);
    var c := PageCount(|data|);
    assert i / ITEMS_PER_PAGE < c by {
      assert i < c * ITEMS_PER_PAGE;
    }
  }
}
