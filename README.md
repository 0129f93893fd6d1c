# Closing-stock inventory pipeline, modelled in Dafny

This project models the client-side logic of a liquor-inventory dashboard. The
dashboard fetches closing-stock rows for a shop, a category and a date. It turns
them into one record per product with one numeric column per packaging size. It
filters them by a search query, pages them, sums each size over the filtered
list, and exports the filtered view as a two-sheet spreadsheet. The login form's
digit-only inputs are modelled too.

Modules, one per source file:

- `ClosingStock` (`src/app/hooks/useStock.ts`): the query function of
  `useClosingStock`. The HTTP response is a parameter. Each row is normalised by
  a loop over the category's packaging sizes.
- `Dashboard` (`src/app/dashboard/page.tsx`): the search filter, the page slice,
  `totalPages`, the totals and summary loops, the page-reset handlers on a
  `DashboardState` class, and the export precondition.
- `ExcelExport` (`src/app/utils/exportToExcel.ts`): the arrays handed to the
  spreadsheet library (data sheet, column widths, metadata sheet), the file name
  and the boolean result.
- `InventoryTable` (`src/components/dashboard/InventoryTable.tsx`): the
  previous/next guards, the stock colour, the five-button page window, the
  last-page shortcut, the go-to-page clamp and the pagination visibility rule.
- `LoginForm` (`src/components/auth/LoginForm.tsx`): the two sanitisers, the
  form state with its demo and clear buttons, and the PIN indicator.
- Shared modules: `Wrappers` (Option, Result), `Strings` (ECMAScript
  whitespace, `trim`, `toLowerCase`, `includes`), `Records` (the records and the
  per-size arithmetic).
- `Scenarios`: small worked examples on a two-size category.

Quantities are `map<int, int>` keyed by packaging-size id (`psid`). A missing
key reads as 0 (`Records.Qty`). Raw response cells are `map<int, Option<int>>`,
where a missing key is `undefined` and `None` is `null`; both read as 0.

Behaviour of the code worth noting:

- `totalPages` is 0 for an empty filtered list (`Math.ceil(0 / n)`).
- The per-size totals record has no keys at all when no product passes the
  filter. It is not a record of zeros.
- `exportToExcel` does not reject empty input. The page handler refuses to export
  only when the filtered list is empty or there is no stock data. An empty
  packaging-size array is truthy in JavaScript, so an export with no size
  columns still goes ahead.
- When a size id is listed twice in a category, the totals loop adds that
  column once per listing. `FilteredTotals` states this with the factor
  `Occurrences(sizes, psid)`. With distinct ids (`DistinctPsids`) each total is
  the plain column sum (`TotalsAreColumnSums`).

## Model

| member | source | states |
|---|---|---|
| `ClosingStock.FindCategory` | src/app/hooks/useStock.ts:71 | Returns the first category whose id equals the requested id. Returns `None` exactly when no category has that id. |
| `ClosingStock.NormaliseRow` | src/app/hooks/useStock.ts:77-90 | The loop that fills a product's size columns one by one ends with exactly `NormalisedRow`: identity and alias fields copied, one column per listed size. |
| `ClosingStock.NormalisedRowColumns` | src/app/hooks/useStock.ts:77-90 | The normalised row has a column for every packaging size and no other. Each column holds the raw cell, or 0 when the cell is missing or `null`. Id, name and alias fields are copied from the raw row. |
| `ClosingStock.NormalisedColumnSum` | src/app/hooks/useStock.ts:89 | Summing a size over the normalised products gives the sum of `stock[psid] \|\| 0` over the raw rows. |
| `ClosingStock.ClosingStockQuery` | src/app/hooks/useStock.ts:58-103 | An empty shop id gives no products, no sizes and pagination `{0, 1}`. Otherwise the result is an error ("Failed to fetch stock data") unless the response has `status` and `closing_stocks`. On success there is one product per raw row, in order, each `NormalisedRow` of its row. The sizes are the selected category's (or none), `totals` is the response's or `{}`, and pagination is `{rows, 1}`. |
| `Strings.TrimStart` | src/app/dashboard/page.tsx:52-54 | The leading part of `trim()`: the result is a suffix of the input, everything dropped is whitespace, and the result does not start with whitespace. |
| `Strings.TrimEnd` | src/app/dashboard/page.tsx:52-54 | The trailing part of `trim()`: the result is a prefix of the input, everything dropped is whitespace, and the result does not end with whitespace. |
| `Strings.TrimBlank` | src/app/dashboard/page.tsx:52 | `trim()` gives "" exactly when every character is whitespace. |
| `Strings.LowerKeepsBlankness` | src/app/dashboard/page.tsx:52-54 | Lower-casing before trimming gives "" exactly when trimming alone does. So a query that passes the blank check never becomes an empty needle. |
| `Dashboard.FilterBlankQuery` | src/app/dashboard/page.tsx:49-52 | Without stock data the filtered list is empty. With an empty or all-whitespace query it is exactly the fetched products. |
| `Dashboard.KeepMatchingMembership` | src/app/dashboard/page.tsx:56-76 | A product is kept iff it is one of the products and the query occurs in its lower-cased name, alias1, alias2 or alias3. An absent field never matches. |
| `Dashboard.KeepMatchingSubsequence` | src/app/dashboard/page.tsx:56-76 | The kept products form a subsequence of the products, so their relative order is preserved. |
| `Dashboard.KeepMatchingAppend` | src/app/dashboard/page.tsx:56-76 | The filter is stable: filtering a concatenation equals concatenating the filtered parts. |
| `Dashboard.FilterSelects` | src/app/dashboard/page.tsx:49-77 | For a non-blank query the lower-cased, trimmed needle is non-empty. A product is in the filtered list iff it is fetched and matches that needle. The filtered list is a subsequence of the fetched products. |
| `Dashboard.TotalPages` | src/app/dashboard/page.tsx:87-89 | The page count is the ceiling of `count / itemsPerPage`: `(pages-1)*n < count <= pages*n`. It is 0 exactly when the list is empty. |
| `Dashboard.PageSlice` | src/app/dashboard/page.tsx:80-84 | Page `p` is `filtered[(p-1)*n .. min((p-1)*n+n, len)]`. It is empty when the start is at or past the end, and never longer than `itemsPerPage`. |
| `Dashboard.PagesReassemble` | src/app/dashboard/page.tsx:80-89 | Concatenating pages `1..totalPages` in order gives back the filtered list exactly. |
| `Dashboard.PageNonEmptyIffInRange` | src/app/dashboard/page.tsx:80-89 | A page has products exactly when its number is at most `totalPages`. A stale page past the end renders empty. |
| `Dashboard.FirstPageAfterReset` | src/app/dashboard/page.tsx:80-84 | Page 1, where every selector change lands, is the first `itemsPerPage` filtered products. It is non-empty whenever some product passes the filter. |
| `Dashboard.CalculateFilteredTotals` | src/app/dashboard/page.tsx:160-173 | The nested loops produce `FilteredTotals`: no keys without filtered products, otherwise one key per size id holding that id's column sum over the filtered products (once per listing). |
| `Dashboard.AddProductToTotals` | src/app/dashboard/page.tsx:164-169 | The inner loop adds one product's cells to the record, creating a missing key with 0. It turns the totals of the products so far into the totals with that product appended. |
| `Dashboard.TotalsAreColumnSums` | src/app/dashboard/page.tsx:160-173 | With distinct size ids and at least one filtered product, every size has a total, and it equals that size's column sum over the filtered list. |
| `Dashboard.TotalsIndependentOfPaging` | src/app/dashboard/page.tsx:160-173 | Adding up a size's sums page by page over all pages gives its sum over the filtered list. The totals do not depend on the page or the page size. |
| `Dashboard.FindShop` | src/app/dashboard/page.tsx:145 | Returns a shop of the list whose decimal id string equals the selected id. Returns `None` exactly when no shop has that id. |
| `Dashboard.FindShopFirst` | src/app/dashboard/page.tsx:145 | `find` returns the first match: when the shop at index `k` is the first whose id string is the selected id, that shop is the result. |
| `Dashboard.ShopDisplayName` | src/app/dashboard/page.tsx:142-145 | Shop "6" displays as "ALL SHOPS". A found shop with a non-empty name displays that name. A missing shop, or a found shop whose name is "", displays the fallback: `""` in the summary, "Unknown Shop" in the export's copy of this rule (lines 184-188). A non-empty fallback never gives "". |
| `Dashboard.CategoryDisplayName` | src/app/dashboard/page.tsx:147-149 | A found category with a non-empty name displays that name. A missing category, or one whose name is "", displays "All Categories", so the result is never "". The export repeats this rule at lines 190-192. |
| `Dashboard.CalculateSummary` | src/app/dashboard/page.tsx:120-158 | `totalProducts` is the filtered length and `totalStock` the sum of every size cell. `lowStockItems` counts products with some size below 10. Both names follow the display rules. |
| `Dashboard.LowStockAtMostProducts` | src/app/dashboard/page.tsx:132-140 | The low-stock count never exceeds the number of filtered products. |
| `Dashboard.TotalStockByColumns` | src/app/dashboard/page.tsx:125-130 | Summing the grid product by product equals summing it size column by size column. |
| `Dashboard.TotalRowMatchesSummary` | src/app/dashboard/page.tsx:120-173 | With distinct size ids, the cells of the TOTAL row built from the filtered totals add up to the summary's total stock. |
| `Dashboard.ExportRequest` | src/app/dashboard/page.tsx:175-201 | No export is attempted exactly when the filtered list is empty or there is no stock data. Otherwise the export gets the filtered products, the fetched sizes, the filtered totals and the selected date. The shop name is the display name with fallback "Unknown Shop", so it is never "". The category name is the category display name. |
| `Dashboard.ExportedSheetMatchesView` | src/app/dashboard/page.tsx:194-201 | An attempted export has `filtered + 2` data-sheet rows. With distinct size ids its TOTAL row holds each size's column sum over the filtered list. |
| `Dashboard.DashboardState.constructor` | src/app/dashboard/page.tsx:19-25 | Initial state: shop "6", category "1", today's date, empty query, page 1, 25 per page, not exporting. |
| `Dashboard.DashboardState.HandleShopChange` | src/app/dashboard/page.tsx:91-94 | Sets the shop and resets the page to 1. It may write only those two fields. |
| `Dashboard.DashboardState.HandleCategoryChange` | src/app/dashboard/page.tsx:96-99 | Sets the category and resets the page to 1. No other field changes. |
| `Dashboard.DashboardState.HandleDateChange` | src/app/dashboard/page.tsx:101-104 | Sets the date and resets the page to 1. No other field changes. |
| `Dashboard.DashboardState.HandleSearchChange` | src/app/dashboard/page.tsx:106-109 | Sets the query and resets the page to 1. No other field changes. |
| `Dashboard.DashboardState.HandlePageChange` | src/app/dashboard/page.tsx:111-113 | Sets only the current page. |
| `Dashboard.DashboardState.HandleItemsPerPageChange` | src/app/dashboard/page.tsx:115-118 | Sets the page size and resets the page to 1. No other field changes. |
| `Dashboard.DashboardState.Render` | src/app/dashboard/page.tsx:49-218 | One render derives the filtered list, its page, the page count, the totals over the whole filtered list and the summary from the current state. |
| `Dashboard.DashboardState.HandleExportToExcel` | src/app/dashboard/page.tsx:175-214 | Reports "nothing to export" exactly when no request is made. Otherwise it reports the workbook that `ExportToExcel` wrote for the request when the library calls complete, and a failure when they do not. `isExporting` is false afterwards. |
| `ExcelExport.MainDataLayout` | src/app/utils/exportToExcel.ts:25-35 | The data sheet has `products + 2` rows, each `1 + sizes` cells wide. The header is "Product Name" then each size label in order. Then one row per product in order (name, then each size's quantity or 0). The last row is "TOTAL" then `totals[psid]` or 0 per size. |
| `ExcelExport.ColWidthsLayout` | src/app/utils/exportToExcel.ts:41-44 | There are `1 + sizes` column widths: 40 for the name column, then 15 each. |
| `ExcelExport.MetadataLayout` | src/app/utils/exportToExcel.ts:51-61 | The info sheet has 8 fixed rows, the shop in row 2 and the product count under "Total Products:". Then comes one `[size, size_title]` row per packaging size, in order. |
| `ExcelExport.UnderscoreWhitespace` | src/app/utils/exportToExcel.ts:69 | Replacing whitespace runs with `_` leaves no whitespace and never lengthens the name. |
| `ExcelExport.UnderscoreWhitespaceRun` | src/app/utils/exportToExcel.ts:69 | A non-empty whitespace run with no whitespace touching it on either side becomes exactly one `_`, and the parts before and after it are replaced on their own. |
| `ExcelExport.UnderscoreWhitespaceSplit` | src/app/utils/exportToExcel.ts:69 | Cutting the name right after a non-whitespace character cuts the replacement at the same place, since `/\s+/g` matches no run that crosses that character. |
| `ExcelExport.UnderscoreWhitespaceIdentity` | src/app/utils/exportToExcel.ts:69 | A name without whitespace passes through unchanged. |
| `ExcelExport.UnderscoreWhitespaceIdempotent` | src/app/utils/exportToExcel.ts:69 | Replacing twice gives the same result as replacing once. |
| `ExcelExport.UnderscoreWhitespaceKeepsName` | src/app/utils/exportToExcel.ts:69 | The characters of the shop name other than whitespace and `_` survive in order. |
| `ExcelExport.FileNameShape` | src/app/utils/exportToExcel.ts:69 | The name starts "Closing_Stock_" and ends ".xlsx", and its shop segment has no whitespace. A whitespace-free shop name gives exactly `Closing_Stock_<shop>_<category>_<date>.xlsx`. |
| `ExcelExport.FileNameWithRun` | src/app/utils/exportToExcel.ts:69 | A shop name `x + w + y` with a whitespace run `w` gives `Closing_Stock_<x'>_<y'>_<category>_<date>.xlsx`, where `x'` and `y'` are the parts after their own replacement. |
| `ExcelExport.AllShopsFileName` | src/app/utils/exportToExcel.ts:69 | The shop name "ALL SHOPS" gives `Closing_Stock_ALL_SHOPS_<category>_<date>.xlsx`. |
| `ExcelExport.UnknownShopFileName` | src/app/utils/exportToExcel.ts:69 | The shop name "Unknown Shop" gives `Closing_Stock_Unknown_Shop_<category>_<date>.xlsx`. |
| `ExcelExport.ExportToExcel` | src/app/utils/exportToExcel.ts:20-79 | Returns true exactly when the library calls complete, and a workbook is written exactly then. The written workbook holds the data sheet `MainData`, the widths `ColWidths`, the info sheet `Metadata`, two info widths of 30 and the name `FileName`. No exception reaches the caller. |
| `ExcelExport.ExportAcceptsEmptyInput` | src/app/utils/exportToExcel.ts:20-79 | No input is rejected. With no products the data sheet is just the header and the TOTAL row. With no packaging sizes every row is the name column alone, there is one column width of 40, and the info sheet has its 8 fixed rows. |
| `InventoryTable.NavigationStaysInRange` | src/components/dashboard/InventoryTable.tsx:24-34 | Previous moves exactly when the page is above 1, to the page before. Next moves exactly when the page is below `totalPages`, to the page after. From a page in `[1, totalPages]` both stay in that range, and each undoes the other. |
| `InventoryTable.StockStatusThresholds` | src/components/dashboard/InventoryTable.tsx:36-43 | 0 or unparsable is red, nonzero below 10 orange, 10 to 49 yellow, 50 and up green. On non-negative stock the colour never worsens as stock grows. |
| `InventoryTable.PageWindowBounds` | src/components/dashboard/InventoryTable.tsx:172-182 | The window has `min(5, totalPages)` consecutive pages, all within `[1, totalPages]`. It contains the current page whenever that page is valid. |
| `InventoryTable.ShortcutIffLastPageHidden` | src/components/dashboard/InventoryTable.tsx:199 | The "..." and last-page button appear exactly when the last page has no button in the window. |
| `InventoryTable.GoToPage` | src/components/dashboard/InventoryTable.tsx:229-234 | The chosen page lies in `[1, max(1, totalPages)]`. A valid page number is kept. 0, a non-number or a negative number becomes 1. A number past the last page becomes the last page. |
| `InventoryTable.GoToPageIdempotent` | src/components/dashboard/InventoryTable.tsx:229-234 | Clamping an already clamped page changes nothing. |
| `InventoryTable.ControlsHaveSomewhereToGo` | src/components/dashboard/InventoryTable.tsx:149 | When the controls render (`totalPages > 1`), page 1 offers Next to page 2, the last page offers no Next, and the window shows at least two pages. |
| `LoginForm.DigitsOf` | src/components/auth/LoginForm.tsx:63 | Stripping non-digits leaves only digits and never lengthens the value. |
| `LoginForm.Sanitize` | src/components/auth/LoginForm.tsx:63 | The result is digits only, at most `limit` long. It is the first `min(limit, digits)` digits of the input, in order. |
| `LoginForm.SanitizeIdempotent` | src/components/auth/LoginForm.tsx:87 | An all-digit value within the limit is returned unchanged, so sanitising twice equals sanitising once. |
| `LoginForm.TypingOneCharacter` | src/components/auth/LoginForm.tsx:63 | Typing a character into a sanitised field appends it if it is a digit and the field is not full. Otherwise the field is unchanged. |
| `LoginForm.LoginFormState.constructor` | src/components/auth/LoginForm.tsx:16-17 | The fields start as "8888098647" and "1234", which are valid inputs. |
| `LoginForm.LoginFormState.FillDemoData` | src/components/auth/LoginForm.tsx:24-27 | Restores the initial demo values. |
| `LoginForm.LoginFormState.ClearForm` | src/components/auth/LoginForm.tsx:29-32 | Sets both fields to "". |
| `LoginForm.LoginFormState.OnMobileChange` | src/components/auth/LoginForm.tsx:62-64 | Stores the sanitised mobile value (at most 10 digits) and leaves the PIN alone. |
| `LoginForm.LoginFormState.OnPinChange` | src/components/auth/LoginForm.tsx:86-88 | Stores the sanitised PIN (at most 4 digits) and leaves the mobile number alone. |
| `LoginForm.PinDotsCountDigits` | src/components/auth/LoginForm.tsx:104-111 | Dot `i` is filled iff `i < pin.length`, so `min(4, pin.length)` dots are filled. A sanitised PIN fills exactly one dot per digit. |
| `Scenarios.ScenarioEmptyQuery` | src/app/dashboard/page.tsx:49-173 | Two products with an empty query: page 1 shows both in order, and the totals are 101 -> 5, 102 -> 12. |
| `Scenarios.ScenarioQueryP1` | src/app/dashboard/page.tsx:49-173 | Query "p1" keeps only the product named "P1". The totals are 101 -> 5, 102 -> 0, on one page. |
| `Scenarios.ScenarioFourthPage` | src/app/dashboard/page.tsx:80-89 | 30 rows at 10 per page make 3 pages, and page 4 is empty. |
| `Scenarios.ScenarioNothingToExport` | src/app/dashboard/page.tsx:175-179 | When nothing matches the query, no export is requested. |

## Left out

- Network and session plumbing is not modelled: the axios client, the bearer-token interceptor, `localStorage`, redirects and JWT decoding. The stock response is a parameter of `ClosingStockQuery`. Shops and categories are parameters of the dashboard members.
- React Query's `enabled` flag, caching, retry, staleness and loading state are not modelled. `stockData` is `None` whenever the query has not produced data, whether it is loading, disabled or failed.
- `getTodayDate` and the "Generated On" timestamp depend on the clock and locale. They are string parameters (the `DashboardState` constructor's `today`, the metadata's `generatedOn`).
- The spreadsheet library calls (`book_new`, `aoa_to_sheet`, `book_append_sheet`, `writeFile`) are not modelled. The model stops at the arrays handed to them. Whether they complete is the `libraryCompletes` parameter.
- `useShops` and `useCategories` only rename fields. The model starts from their output (`Shop`, `Category`, with the category id already a string).
- Presentation markup, `alert` and `console` are not modelled. That includes the table rows, which read `size` and `stock_qty` fields the normaliser no longer produces. The handler's `catch` branch ("Error exporting data") is absent because nothing inside the `try` can throw.
- The login form's `handleSubmit` only passes both fields to the `onSubmit` callback, which is I/O.
- Strings.Lower: folds only ASCII letters; full Unicode case mapping of `toLowerCase` is not modelled.
- ClosingStock.RawStock: size cells are numbers or `null`. A numeric string from the server (which JavaScript's `+=` would concatenate) is not modelled. Stock and product ids are taken to be present integers.
- InventoryTable.GoToPage: `Number(value)` is modelled as an integer or not-a-number. A fractional page number typed into the box is not modelled.
- InventoryTable.StockStatusColor: the argument is the already parsed `parseInt` result.
- Dashboard.TotalPages: requires a page size of at least 1. The page-size selector offers only 10, 25, 50 and 100, so the `Infinity` of a zero page size cannot arise.
- Dashboard.DashboardState.HandlePageChange: requires a page of at least 1. Every caller in the table passes one: Previous, Next, the window buttons, the last-page button and the clamped input.
- Quantities are JavaScript numbers (IEEE doubles) in the source. Sums above 2^53 lose precision there, while the model's `int` arithmetic is exact.
- Dashboard.CalculateSummary: the category name comes from the same category lookup as the stock query (first category with that id).
