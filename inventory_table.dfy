/** The navigation helpers and the stock-status colouring of the inventory table.
    The page state lives in the dashboard; these helpers compute which page the
    table asks for. */
module InventoryTable {
  import opened Wrappers

  /** `handlePrevious`: the page passed to `onPageChange`, or `None` when nothing is called. */
  function HandlePrevious(currentPage: int): Option<int> {
    if currentPage > 1 then Some(currentPage - 1) else None
  }

  /** `handleNext`. */
  function HandleNext(currentPage: int, totalPages: int): Option<int> {
    if currentPage < totalPages then Some(currentPage + 1) else None
  }

  /** Previous fires exactly above page 1 and Next exactly below the last page,
      each moving by one page; from a valid page both stay in `[1, totalPages]`
      and undo each other. */
  lemma NavigationStaysInRange(currentPage: int, totalPages: int)
    ensures HandlePrevious(currentPage).Some? <==> currentPage > 1
    ensures HandleNext(currentPage, totalPages).Some? <==> currentPage < totalPages
    ensures HandlePrevious(currentPage).Some? ==> HandlePrevious(currentPage).value == currentPage - 1
    ensures HandleNext(currentPage, totalPages).Some? ==> HandleNext(currentPage, totalPages).value == currentPage + 1
    ensures 1 <= currentPage <= totalPages && HandlePrevious(currentPage).Some? ==> 1 <= HandlePrevious(currentPage).value <= totalPages
    ensures 1 <= currentPage <= totalPages && HandleNext(currentPage, totalPages).Some? ==> 1 <= HandleNext(currentPage, totalPages).value <= totalPages
    ensures 1 <= currentPage && HandleNext(currentPage, totalPages).Some? ==> HandlePrevious(HandleNext(currentPage, totalPages).value) == Some(currentPage)
    ensures currentPage <= totalPages && HandlePrevious(currentPage).Some? ==> HandleNext(HandlePrevious(currentPage).value, totalPages) == Some(currentPage)
  {
  }

  /** The four badge colours of a stock quantity. */
  datatype StatusColor = Red | Orange | Yellow | Green

  /** The CSS classes `getStockStatusColor` returns for each colour. */
  function ClassName(color: StatusColor): string {
    match color
    case Red => "bg-red-100 text-red-800"
    case Orange => "bg-orange-100 text-orange-800"
    case Yellow => "bg-yellow-100 text-yellow-800"
    case Green => "bg-green-100 text-green-800"
  }

  /** `getStockStatusColor`; `parsed` is `parseInt(stock)`, `None` standing for `NaN`. */
  function StockStatusColor(parsed: Option<int>): StatusColor {
    var stockNum := if parsed.Some? then parsed.value else 0;
    if stockNum == 0 then Red
    else if stockNum < 10 then Orange
    else if stockNum < 50 then Yellow
    else Green
  }

  function Severity(color: StatusColor): nat {
    match color
    case Red => 0
    case Orange => 1
    case Yellow => 2
    case Green => 3
  }

  /** The thresholds: unparsable or 0 is red, below 10 orange, below 50 yellow,
      otherwise green; on non-negative stock the colour never gets worse as the
      stock grows. */
  lemma StockStatusThresholds(parsed: Option<int>, a: int, b: int)
    ensures StockStatusColor(None) == Red
    ensures var n := parsed.GetOr(0);
      && (StockStatusColor(parsed) == Red <==> n == 0)
      && (StockStatusColor(parsed) == Orange <==> n != 0 && n < 10)
      && (StockStatusColor(parsed) == Yellow <==> 10 <= n < 50)
      && (StockStatusColor(parsed) == Green <==> n >= 50)
    ensures 0 <= a <= b ==> Severity(StockStatusColor(Some(a))) <= Severity(StockStatusColor(Some(b)))
  {
  }

  /** The first page button of the five-button window. */
  function WindowStart(currentPage: int, totalPages: int): int {
    if totalPages <= 5 then 1
    else if currentPage <= 3 then 1
    else if currentPage >= totalPages - 2 then totalPages - 4
    else currentPage - 2
  }

  /** The page buttons: `Array.from({ length: Math.min(5, totalPages) }, ...)`;
      a non-positive length gives no buttons. */
  function PageWindow(currentPage: int, totalPages: int): seq<int> {
    var count := if totalPages <= 0 then 0 else Min(5, totalPages);
    seq(count, i requires 0 <= i < count => WindowStart(currentPage, totalPages) + i)
  }

  /** The window holds `min(5, totalPages)` consecutive pages, all within
      `[1, totalPages]`, and the current page whenever it is a valid page. */
  lemma PageWindowBounds(currentPage: int, totalPages: int)
    ensures var w := PageWindow(currentPage, totalPages);
      && |w| == (if totalPages <= 0 then 0 else Min(5, totalPages))
      && (forall i :: 0 <= i < |w| ==> 1 <= w[i] <= totalPages)
      && (forall i :: 0 <= i < |w| - 1 ==> w[i + 1] == w[i] + 1)
      && (1 <= currentPage <= totalPages ==> currentPage in w)
  {
    var w := PageWindow(currentPage, totalPages);
    var start := WindowStart(currentPage, totalPages);
    assert forall i :: 0 <= i < |w| ==> w[i] == start + i;
    if totalPages >= 1 {
      assert 1 <= start && start + |w| - 1 <= totalPages;
    }
    if 1 <= currentPage <= totalPages {
      assert w[currentPage - start] == currentPage;
    }
  }

  /** `totalPages > 5 && currentPage < totalPages - 2`: the "..." and last-page button. */
  predicate ShowLastPageShortcut(currentPage: int, totalPages: int) {
    totalPages > 5 && currentPage < totalPages - 2
  }

  /** The last-page shortcut appears exactly when the last page has no button in
      the window. */
  lemma ShortcutIffLastPageHidden(currentPage: int, totalPages: int)
    requires totalPages >= 1
    ensures ShowLastPageShortcut(currentPage, totalPages) <==> totalPages !in PageWindow(currentPage, totalPages)
  {
    var w := PageWindow(currentPage, totalPages);
    var start := WindowStart(currentPage, totalPages);
    assert forall i :: 0 <= i < |w| ==> w[i] == start + i;
    if !ShowLastPageShortcut(currentPage, totalPages) {
      assert start + |w| - 1 == totalPages;
      assert w[|w| - 1] == totalPages;
    } else {
      assert start + |w| - 1 < totalPages;
    }
  }

  /** The go-to-page input: `Math.max(1, Math.min(totalPages, Number(value) || 1))`,
      `None` standing for a value that is not a number. */
  function GoToPage(input: Option<int>, totalPages: int): (page: int)
    ensures 1 <= page <= Max(1, totalPages)
    ensures input.Some? && 1 <= input.value <= totalPages ==> page == input.value
    ensures input.None? || input == Some(0) ==> page == 1
    ensures input.Some? && input.value > totalPages >= 1 ==> page == totalPages
    ensures input.Some? && input.value < 0 ==> page == 1
  {
    var requested := if input.Some? && input.value != 0 then input.value else 1;
    Max(1, Min(totalPages, requested))
  }

  /** Clamping a page that came out of the clamp changes nothing. */
  lemma GoToPageIdempotent(input: Option<int>, totalPages: int)
    ensures GoToPage(Some(GoToPage(input, totalPages)), totalPages) == GoToPage(input, totalPages)
  {
  }

  /** The pagination controls render only when there is more than one page. */
  predicate ShowPaginationControls(totalPages: int) {
    totalPages > 1
  }

  /** When the controls render, page 1 offers Next, the window shows at least two
      pages, and the last page offers no Next. */
  lemma ControlsHaveSomewhereToGo(totalPages: int)
    requires ShowPaginationControls(totalPages)
    ensures HandleNext(1, totalPages) == Some(2)
    ensures HandleNext(totalPages, totalPages).None?
    ensures |PageWindow(1, totalPages)| >= 2
  {
  }
}
