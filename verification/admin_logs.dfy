/**
 * The paging state of the admin event-log viewer (`js/smarty-gtm-admin.js`):
 * the module-level `currentPage` and `totalPages`, the success and error
 * callbacks of `loadEventLogs`, and the guards of the Prev and Next buttons.
 * Each response is handled as one atomic step; the table markup is not
 * modelled.
 */
module AdminLogs {

  import opened Wrappers

  /** Rows per page, the `limit` constant of the viewer. */
  const Limit := 10

  /** A page number the viewer may request. */
  type PageNumber = n: int | n >= 1 witness 1

  /** The page the viewer loads when it opens. */
  const FirstPage: PageNumber := 1

  /** `Math.ceil(total / limit)` for an integer row count. */
  function PageCount(total: int): (r: int)
    ensures r * Limit >= total
    ensures (r - 1) * Limit < total
  {
    (total + Limit - 1) / Limit
  }

  /** A page holds rows exactly when its number is at most the page count. */
  lemma PageHoldsRows(total: int, page: PageNumber)
    ensures page <= PageCount(total) <==> (page - 1) * Limit < total
  {
    var c := PageCount(total);
    if page <= c {
      assert (page - 1) * Limit <= (c - 1) * Limit;
    } else {
      assert (page - 1) * Limit >= c * Limit;
    }
  }

  datatype LogRow = LogRow(eventTime: string, eventName: string, eventData: string)

  /** What `loadEventLogs` gets back: a transport error, `success: false`, or a page of rows and the total. */
  datatype Response = TransportError | Failure(message: string) | Success(logs: seq<LogRow>, total: int)

  /** `totalPages > 1 || logs.length > 0`. */
  predicate ShowsPagination(totalPages: int, logs: seq<LogRow>) {
    totalPages > 1 || |logs| > 0
  }

  class LogViewer {
    var currentPage: PageNumber
    var totalPages: int
    /** Whether `#smarty-gtm-event-logs-pagination` is visible. */
    var paginationShown: bool

    /** The state before the first response; `shownInMarkup` is the controls' initial visibility. */
    constructor (shownInMarkup: bool)
      ensures currentPage == 1 && totalPages == 1 && paginationShown == shownInMarkup
    {
      currentPage := 1;
      totalPages := 1;
      paginationShown := shownInMarkup;
    }

    /**
     * The callbacks of `loadEventLogs(page)`: only a successful response moves
     * the state; `success: false` and transport errors leave it as it was.
     */
    method OnResponse(page: PageNumber, response: Response)
      modifies this
      ensures response.Success? ==>
        && currentPage == page
        && totalPages == PageCount(response.total)
        && paginationShown == ShowsPagination(totalPages, response.logs)
      ensures !response.Success? ==>
        currentPage == old(currentPage) && totalPages == old(totalPages) && paginationShown == old(paginationShown)
    {
      if !response.Success? {
        return;
      }
      totalPages := PageCount(response.total);
      currentPage := page;
      paginationShown := totalPages > 1 || |response.logs| > 0;
    }

    /** The Prev button: asks for the page before, unless this is the first. */
    method PrevRequest() returns (request: Option<PageNumber>)
      ensures request.Some? <==> currentPage > 1
      ensures request.Some? ==> request.value == currentPage - 1
    {
      request := None;
      if currentPage > 1 {
        request := Some(currentPage - 1);
      }
    }

    /** The Next button: asks for the page after, unless this is the last. */
    method NextRequest() returns (request: Option<PageNumber>)
      ensures request.Some? <==> currentPage < totalPages
      ensures request.Some? ==> request.value == currentPage + 1 && request.value <= totalPages
    {
      request := None;
      if currentPage < totalPages {
        request := Some(currentPage + 1);
      }
    }
  }

  /**
   * Opening the viewer and pressing Next until it stops, with every response
   * successful and the total fixed, ends on the last page that holds rows (or
   * on page 1 when there are at most ten rows), one click per page.
   */
  method BrowseToLastPage(total: int, logs: seq<LogRow>) returns (last: PageNumber, clicks: nat)
    ensures last == (if PageCount(total) > 1 then PageCount(total) else 1)
    ensures clicks == last - 1
  {
    var viewer := new LogViewer(false);
    viewer.OnResponse(FirstPage, Success(logs, total));
    clicks := 0;
    var request := viewer.NextRequest();
    while request.Some?
      invariant viewer.totalPages == PageCount(total)
      invariant viewer.currentPage == clicks + 1
      invariant viewer.currentPage <= (if PageCount(total) > 1 then PageCount(total) else 1)
      invariant request.Some? <==> viewer.currentPage < viewer.totalPages
      invariant request.Some? ==> request.value == viewer.currentPage + 1
      decreases viewer.totalPages - viewer.currentPage
    {
      viewer.OnResponse(request.value, Success(logs, total));
      clicks := clicks + 1;
      request := viewer.NextRequest();
    }
    last := viewer.currentPage;
  }

  /**
   * After the first load, a failed load of the next page changes neither the
   * page nor the page count. The next page is requested exactly when there is
   * more than one page.
   */
  method FailedLoadKeepsPage(total: int, logs: seq<LogRow>, failure: Response)
    returns (before: (int, int), after: (int, int), attempted: bool)
    requires !failure.Success?
    ensures attempted <==> PageCount(total) > 1
    ensures after == before == (1, PageCount(total))
  {
    var viewer := new LogViewer(false);
    viewer.OnResponse(FirstPage, Success(logs, total));
    before := (viewer.currentPage, viewer.totalPages);
    var request := viewer.NextRequest();
    attempted := request.Some?;
    if request.Some? {
      viewer.OnResponse(request.value, failure);
    }
    after := (viewer.currentPage, viewer.totalPages);
  }
}
