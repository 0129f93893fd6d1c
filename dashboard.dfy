/** The dashboard page: search filter, pagination, per-size totals over the
    filtered list, the summary figures, the page-reset handlers and the export
    precondition. */
module Dashboard {
  import opened Wrappers
  import opened Strings
  import opened Records
  import opened ClosingStock
  import opened ExcelExport

  // ---------------------------------------------------------------------------
  // Search filter

  /** `field?.toLowerCase().includes(query)`: an absent field never matches. */
  predicate FieldMatches(field: Option<string>, query: string) {
    field.Some? && Contains(Lower(field.value), query)
  }

  /** The filter callback: the query occurs in the name or in one of the aliases. */
  predicate Matches(p: Product, query: string) {
    || FieldMatches(p.productName, query)
    || FieldMatches(p.alias1, query)
    || FieldMatches(p.alias2, query)
    || FieldMatches(p.alias3, query)
  }

  /** `products.filter(...)` with the matching callback. */
  function KeepMatching(products: seq<Product>, query: string): seq<Product>
    decreases |products|
  {
    if products == [] then []
    else (if Matches(products[0], query) then [products[0]] else []) + KeepMatching(products[1..], query)
  }

  /** `filteredProducts`: nothing without stock data, every product for a blank
      query, otherwise the products matching the lower-cased, trimmed query. */
  function FilteredProducts(stockData: Option<StockData>, searchQuery: string): seq<Product> {
    if stockData.None? then []
    else if Trim(searchQuery) == [] then stockData.value.products
    else KeepMatching(stockData.value.products, Trim(Lower(searchQuery)))
  }

  /** `a` can be obtained from `b` by deleting elements. */
  predicate IsSubsequence<T(==)>(a: seq<T>, b: seq<T>)
    decreases |b|
  {
    a == [] || (b != [] && (IsSubsequence(a, b[1..]) || (a[0] == b[0] && IsSubsequence(a[1..], b[1..]))))
  }

  /** Without stock data the list is empty; with a blank (empty or all-whitespace)
      query it is exactly the fetched products. */
  lemma FilterBlankQuery(stockData: Option<StockData>, searchQuery: string)
    ensures stockData.None? ==> FilteredProducts(stockData, searchQuery) == []
    ensures stockData.Some? && (forall i :: 0 <= i < |searchQuery| ==> IsWhitespace(searchQuery[i])) ==>
      FilteredProducts(stockData, searchQuery) == stockData.value.products
  {
    TrimBlank(searchQuery);
  }

  /** A product is kept iff it is one of the products and matches the query. */
  lemma {:induction false} KeepMatchingMembership(products: seq<Product>, query: string, p: Product)
    ensures p in KeepMatching(products, query) <==> p in products && Matches(p, query)
    decreases |products|
  {
    if products != [] {
      KeepMatchingMembership(products[1..], query, p);
      assert products == [products[0]] + products[1..];
    }
  }

  /** The filter keeps the relative order of the products it keeps. */
  lemma {:induction false} KeepMatchingSubsequence(products: seq<Product>, query: string)
    ensures IsSubsequence(KeepMatching(products, query), products)
    decreases |products|
  {
    if products != [] {
      var rest := KeepMatching(products[1..], query);
      KeepMatchingSubsequence(products[1..], query);
      if Matches(products[0], query) {
        assert KeepMatching(products, query) == [products[0]] + rest;
        assert ([products[0]] + rest)[1..] == rest;
      } else {
        assert KeepMatching(products, query) == rest;
      }
    }
  }

  /** The filter is stable: filtering a concatenation filters each part. */
  lemma {:induction false} KeepMatchingAppend(a: seq<Product>, b: seq<Product>, query: string)
    ensures KeepMatching(a + b, query) == KeepMatching(a, query) + KeepMatching(b, query)
    decreases |a|
  {
    if a == [] {
      assert a + b == b;
    } else {
      var head := if Matches(a[0], query) then [a[0]] else [];
      assert (a + b)[0] == a[0];
      assert (a + b)[1..] == a[1..] + b;
      assert KeepMatching(a + b, query) == head + KeepMatching(a[1..] + b, query);
      assert KeepMatching(a, query) == head + KeepMatching(a[1..], query);
      KeepMatchingAppend(a[1..], b, query);
    }
  }

  /** With stock data and a query that is not blank, a product is in the filtered
      list iff it is a fetched product whose name or an alias contains the
      lower-cased, trimmed query, and the list is a subsequence of the products. */
  lemma FilterSelects(d: StockData, searchQuery: string, p: Product)
    requires Trim(searchQuery) != []
    ensures Trim(Lower(searchQuery)) != []
    ensures p in FilteredProducts(Some(d), searchQuery) <==> p in d.products && Matches(p, Trim(Lower(searchQuery)))
    ensures IsSubsequence(FilteredProducts(Some(d), searchQuery), d.products)
  {
    LowerKeepsBlankness(searchQuery);
    KeepMatchingMembership(d.products, Trim(Lower(searchQuery)), p);
    KeepMatchingSubsequence(d.products, Trim(Lower(searchQuery)));
  }

  // ---------------------------------------------------------------------------
  // Pagination

  /** How `Array.prototype.slice` resolves an index against a length. */
  function SliceIndex(i: int, len: nat): (r: nat)
    ensures r <= len
  {
    if i < 0 then Max(len + i, 0) else Min(i, len)
  }

  /** `s.slice(start, end)`. */
  function JsSlice<T>(s: seq<T>, start: int, end: int): seq<T> {
    var from, to := SliceIndex(start, |s|), SliceIndex(end, |s|);
    if from < to then s[from..to] else []
  }

  /** `paginatedProducts`. */
  function Paginate<T>(filtered: seq<T>, currentPage: int, itemsPerPage: int): seq<T> {
    var startIndex := (currentPage - 1) * itemsPerPage;
    JsSlice(filtered, startIndex, startIndex + itemsPerPage)
  }

  /** `Math.ceil(count / itemsPerPage)`. */
  function TotalPages(count: nat, itemsPerPage: int): (pages: nat)
    requires itemsPerPage >= 1
    ensures (pages - 1) * itemsPerPage < count <= pages * itemsPerPage
    ensures pages == 0 <==> count == 0
  {
    (count + itemsPerPage - 1) / itemsPerPage
  }

  /** A page is the slice `[(p-1)*n, min((p-1)*n + n, len))` of the filtered list:
      at most `n` long, empty when it starts at or beyond the end. */
  lemma PageSlice<T>(filtered: seq<T>, currentPage: int, itemsPerPage: int)
    requires currentPage >= 1 && itemsPerPage >= 1
    ensures var start := (currentPage - 1) * itemsPerPage;
      && (start < |filtered| ==> Paginate(filtered, currentPage, itemsPerPage) == filtered[start..Min(start + itemsPerPage, |filtered|)])
      && (start >= |filtered| ==> Paginate(filtered, currentPage, itemsPerPage) == [])
      && |Paginate(filtered, currentPage, itemsPerPage)| <= itemsPerPage
  {
    var start := (currentPage - 1) * itemsPerPage;
    assert start >= 0 by { MulNonNegative(currentPage - 1, itemsPerPage); }
  }

  lemma MulNonNegative(a: int, b: int)
    requires a >= 0 && b >= 0
    ensures a * b >= 0
  {
  }

  lemma MulStep(k: int, n: int)
    ensures (k - 1) * n + n == k * n
  {
  }

  lemma MulMonotone(a: int, b: int, n: int)
    requires a <= b && n >= 0
    ensures a * n <= b * n
  {
    MulNonNegative(b - a, n);
    assert b * n - a * n == (b - a) * n;
  }

  /** Pages `1..k` laid end to end. */
  function PagesUpTo<T>(filtered: seq<T>, itemsPerPage: int, k: nat): seq<T>
    decreases k
  {
    if k == 0 then [] else PagesUpTo(filtered, itemsPerPage, k - 1) + Paginate(filtered, k, itemsPerPage)
  }

  lemma {:induction false} PagesUpToIsPrefix<T>(filtered: seq<T>, itemsPerPage: int, k: nat)
    requires itemsPerPage >= 1
    ensures PagesUpTo(filtered, itemsPerPage, k) == filtered[..Min(k * itemsPerPage, |filtered|)]
    decreases k
  {
    if k > 0 {
      PagesUpToIsPrefix(filtered, itemsPerPage, k - 1);
      MulStep(k, itemsPerPage);
      MulNonNegative(k - 1, itemsPerPage);
      PrefixThenSlice(filtered, (k - 1) * itemsPerPage, itemsPerPage);
    }
  }

  /** The prefix up to `start` followed by the slice `[start, start + n)` is the
      prefix up to `start + n`, both cut at the end of the list. */
  lemma PrefixThenSlice<T>(s: seq<T>, start: int, n: int)
    requires start >= 0 && n >= 1
    ensures s[..Min(start, |s|)] + JsSlice(s, start, start + n) == s[..Min(start + n, |s|)]
  {
    if start < |s| {
      assert s[..start] + s[start..Min(start + n, |s|)] == s[..Min(start + n, |s|)];
    }
  }

  /** Concatenating pages `1..totalPages` in order gives back the filtered list. */
  lemma PagesReassemble<T>(filtered: seq<T>, itemsPerPage: int)
    requires itemsPerPage >= 1
    ensures PagesUpTo(filtered, itemsPerPage, TotalPages(|filtered|, itemsPerPage)) == filtered
  {
    PagesUpToIsPrefix(filtered, itemsPerPage, TotalPages(|filtered|, itemsPerPage));
  }

  /** A page has products exactly when its number is at most `totalPages`: a stale
      page number past the end shows an empty page. */
  lemma PageNonEmptyIffInRange<T>(filtered: seq<T>, currentPage: int, itemsPerPage: int)
    requires currentPage >= 1 && itemsPerPage >= 1
    ensures Paginate(filtered, currentPage, itemsPerPage) != [] <==> currentPage <= TotalPages(|filtered|, itemsPerPage)
  {
    var pages := TotalPages(|filtered|, itemsPerPage);
    PageSlice(filtered, currentPage, itemsPerPage);
    if currentPage <= pages {
      MulMonotone(currentPage - 1, pages - 1, itemsPerPage);
    } else {
      MulMonotone(pages, currentPage - 1, itemsPerPage);
    }
  }

  /** The sum of `psid` over the page contents equals the sum over the filtered
      list: per-size totals do not depend on paging. */
  lemma TotalsIndependentOfPaging(filtered: seq<Product>, itemsPerPage: int, psid: int)
    requires itemsPerPage >= 1
    ensures PageColumnSums(filtered, itemsPerPage, TotalPages(|filtered|, itemsPerPage), psid) == ColumnSum(filtered, psid)
  {
    var pages := TotalPages(|filtered|, itemsPerPage);
    PageColumnSumsConcat(filtered, itemsPerPage, pages, psid);
    PagesReassemble(filtered, itemsPerPage);
  }

  /** The sum over pages `1..k` of each page's column sum. */
  function PageColumnSums(filtered: seq<Product>, itemsPerPage: int, k: nat, psid: int): int
    decreases k
  {
    if k == 0 then 0
    else PageColumnSums(filtered, itemsPerPage, k - 1, psid) + ColumnSum(Paginate(filtered, k, itemsPerPage), psid)
  }

  lemma {:induction false} PageColumnSumsConcat(filtered: seq<Product>, itemsPerPage: int, k: nat, psid: int)
    ensures PageColumnSums(filtered, itemsPerPage, k, psid) == ColumnSum(PagesUpTo(filtered, itemsPerPage, k), psid)
    decreases k
  {
    if k > 0 {
      PageColumnSumsConcat(filtered, itemsPerPage, k - 1, psid);
      ColumnSumAppend(PagesUpTo(filtered, itemsPerPage, k - 1), Paginate(filtered, k, itemsPerPage), psid);
    }
  }

  // ---------------------------------------------------------------------------
  // Totals over the filtered list

  /** `stockData?.packagingSizes`, or no sizes without stock data. */
  function SizesOf(stockData: Option<StockData>): seq<PackagingSize> {
    if stockData.Some? then stockData.value.packagingSizes else []
  }

  /** What `calculateFilteredTotals` returns: no keys at all without filtered
      products; otherwise one key per size id, holding that id's column sum over
      the filtered products, added once per time the id is listed. */
  function FilteredTotals(filtered: seq<Product>, sizes: seq<PackagingSize>): map<int, int> {
    if filtered == [] then map[]
    else map psid | psid in PsidsOf(sizes) :: Occurrences(sizes, psid) * ColumnSum(filtered, psid)
  }

  /** `calculateFilteredTotals`: the nested `forEach` loops that build the record
      in place. */
  method CalculateFilteredTotals(filtered: seq<Product>, sizes: seq<PackagingSize>) returns (totals: map<int, int>)
    ensures totals == FilteredTotals(filtered, sizes)
  {
    totals := map[];
    var i := 0;
    while i < |filtered|
      invariant 0 <= i <= |filtered|
      invariant totals == FilteredTotals(filtered[..i], sizes)
    {
      totals := AddProductToTotals(totals, filtered[i], sizes, filtered[..i]);
      assert filtered[..i + 1] == filtered[..i] + [filtered[i]];
      i := i + 1;
    }
    assert filtered[..i] == filtered;
  }

  /** The inner `packagingSizes.forEach` of `calculateFilteredTotals`: adds one
      product's cells to the record, creating a missing key with 0 first. */
  method AddProductToTotals(totals: map<int, int>, product: Product, sizes: seq<PackagingSize>, ghost done: seq<Product>)
    returns (updated: map<int, int>)
    requires totals == FilteredTotals(done, sizes)
    ensures updated == FilteredTotals(done + [product], sizes)
  {
    updated := totals;
    PartialTotalsStart(done, product, sizes);
    var j := 0;
    while j < |sizes|
      invariant 0 <= j <= |sizes|
      invariant updated == PartialTotals(done, product, sizes, j)
    {
      var psid := sizes[j].psid;
      PartialTotalsStep(done, product, sizes, j);
      // `if (!totals[psid]) totals[psid] = 0;` then `totals[psid] += product[psid] || 0`
      var current := if psid !in updated || updated[psid] == 0 then 0 else updated[psid];
      assert current == ValueOrZero(updated, psid);
      updated := updated[psid := current + Qty(product, psid)];
      j := j + 1;
    }
    PartialTotalsEnd(done, product, sizes);
  }

  /** The record after the products `done` and the first `j` sizes of `product`. */
  ghost function PartialTotals(done: seq<Product>, product: Product, sizes: seq<PackagingSize>, j: nat): map<int, int>
    requires j <= |sizes|
  {
    map psid | psid in PartialKeys(done, sizes, j) :: PartialValue(done, product, sizes, j, psid)
  }

  /** The keys present after the products `done` and the first `j` sizes of the next one. */
  ghost function PartialKeys(done: seq<Product>, sizes: seq<PackagingSize>, j: nat): set<int>
    requires j <= |sizes|
  {
    if done == [] then PsidsOf(sizes[..j]) else PsidsOf(sizes)
  }

  /** The value of key `psid` after the products `done` and the first `j` sizes of `product`. */
  ghost function PartialValue(done: seq<Product>, product: Product, sizes: seq<PackagingSize>, j: nat, psid: int): int
    requires j <= |sizes|
  {
    Occurrences(sizes, psid) * ColumnSum(done, psid) + Occurrences(sizes[..j], psid) * Qty(product, psid)
  }

  lemma PartialTotalsStart(done: seq<Product>, product: Product, sizes: seq<PackagingSize>)
    ensures PartialTotals(done, product, sizes, 0) == FilteredTotals(done, sizes)
  {
  }

  lemma PartialTotalsEnd(done: seq<Product>, product: Product, sizes: seq<PackagingSize>)
    ensures PartialTotals(done, product, sizes, |sizes|) == FilteredTotals(done + [product], sizes)
  {
    var after := done + [product];
    assert after[..|after| - 1] == done;
    assert sizes[..|sizes|] == sizes;
    forall psid | psid in PsidsOf(sizes)
      ensures PartialTotals(done, product, sizes, |sizes|)[psid] == FilteredTotals(after, sizes)[psid]
    {
      var n := Occurrences(sizes, psid);
      assert n * ColumnSum(done, psid) + n * Qty(product, psid) == n * (ColumnSum(done, psid) + Qty(product, psid));
    }
  }

  lemma PartialTotalsStep(done: seq<Product>, product: Product, sizes: seq<PackagingSize>, j: nat)
    requires j < |sizes|
    ensures var before, psid := PartialTotals(done, product, sizes, j), sizes[j].psid;
      PartialTotals(done, product, sizes, j + 1) == before[psid := ValueOrZero(before, psid) + Qty(product, psid)]
  {
    var before, psid := PartialTotals(done, product, sizes, j), sizes[j].psid;
    var after := PartialTotals(done, product, sizes, j + 1);
    var expected := before[psid := ValueOrZero(before, psid) + Qty(product, psid)];
    PartialKeysStep(done, sizes, j);
    assert after.Keys == expected.Keys;
    forall x | x in after.Keys
      ensures after[x] == expected[x]
    {
      PartialValueStep(done, product, sizes, j, x);
      if x !in before {
        PartialValueAbsent(done, product, sizes, j, x);
      }
    }
  }

  /** Adding size `j` adds its id to the keys. */
  lemma PartialKeysStep(done: seq<Product>, sizes: seq<PackagingSize>, j: nat)
    requires j < |sizes|
    ensures PartialKeys(done, sizes, j + 1) == PartialKeys(done, sizes, j) + {sizes[j].psid}
  {
    PsidsOfPrefixStep(sizes, j);
    assert sizes[j].psid in PsidsOf(sizes);
  }

  /** A key not yet created stands for a zero total. */
  lemma PartialValueAbsent(done: seq<Product>, product: Product, sizes: seq<PackagingSize>, j: nat, x: int)
    requires j <= |sizes| && x !in PartialKeys(done, sizes, j)
    ensures PartialValue(done, product, sizes, j, x) == 0
  {
    OccurrencesPositive(sizes[..j], x);
    if done != [] {
      OccurrencesPositive(sizes, x);
    }
  }

  /** Adding size `j` of `product` raises only the value of that size's id. */
  lemma PartialValueStep(done: seq<Product>, product: Product, sizes: seq<PackagingSize>, j: nat, x: int)
    requires j < |sizes|
    ensures PartialValue(done, product, sizes, j + 1, x)
      == PartialValue(done, product, sizes, j, x) + (if sizes[j].psid == x then Qty(product, x) else 0)
  {
    OccurrencesPrefixStep(sizes, j, x);
    var m, q := Occurrences(sizes[..j], x), Qty(product, x);
    assert (m + 1) * q == m * q + q;
  }

  /** With distinct size ids and at least one filtered product, each size's total
      is that size's column sum over the filtered products. */
  lemma TotalsAreColumnSums(filtered: seq<Product>, sizes: seq<PackagingSize>, k: int)
    requires filtered != [] && DistinctPsids(sizes) && 0 <= k < |sizes|
    ensures sizes[k].psid in FilteredTotals(filtered, sizes)
    ensures FilteredTotals(filtered, sizes)[sizes[k].psid] == ColumnSum(filtered, sizes[k].psid)
  {
    OccurrencesDistinct(sizes, k);
  }

  // ---------------------------------------------------------------------------
  // Summary

  /** The low-stock threshold of the summary. */
  const LowStockThreshold := 10

  /** The shop id that stands for all shops. */
  const AllShopsId := "6"

  datatype Summary = Summary(
    totalProducts: int,
    totalStock: int,
    lowStockItems: int,
    selectedShopName: string,
    selectedCategoryName: string)

  /** The sum of a product's cells over the listed sizes. */
  function RowStock(p: Product, sizes: seq<PackagingSize>): int
    decreases |sizes|
  {
    if sizes == [] then 0 else RowStock(p, sizes[..|sizes| - 1]) + Qty(p, sizes[|sizes| - 1].psid)
  }

  /** The sum of every size cell of every product. */
  function TotalStock(products: seq<Product>, sizes: seq<PackagingSize>): int
    decreases |products|
  {
    if products == [] then 0 else TotalStock(products[..|products| - 1], sizes) + RowStock(products[|products| - 1], sizes)
  }

  /** Some listed size of the product holds fewer than 10 units. */
  predicate IsLowStock(p: Product, sizes: seq<PackagingSize>) {
    exists j :: 0 <= j < |sizes| && Qty(p, sizes[j].psid) < LowStockThreshold
  }

  /** How many products are low on stock. */
  function CountLowStock(products: seq<Product>, sizes: seq<PackagingSize>): nat
    decreases |products|
  {
    if products == [] then 0
    else CountLowStock(products[..|products| - 1], sizes) + (if IsLowStock(products[|products| - 1], sizes) then 1 else 0)
  }

  /** Decimal rendering of a natural number, as `Number.prototype.toString` gives it. */
  function NatString(n: nat): string
    decreases n
  {
    if n < 10 then ["0123456789"[n]] else NatString(n / 10) + ["0123456789"[n % 10]]
  }

  /** `id.toString()` for an integer id. */
  function IntString(n: int): string {
    if n < 0 then "-" + NatString(-n) else NatString(n)
  }

  /** `shops.find((s) => s.id.toString() === shopId)`: the first shop with that id string. */
  function FindShop(shops: seq<Shop>, shopId: string): (found: Option<Shop>)
    ensures found.Some? ==> found.value in shops && IntString(found.value.id) == shopId
    ensures found.None? <==> forall k :: 0 <= k < |shops| ==> IntString(shops[k].id) != shopId
    decreases |shops|
  {
    if shops == [] then None
    else if IntString(shops[0].id) == shopId then Some(shops[0])
    else
      var rest := FindShop(shops[1..], shopId);
      assert forall k :: 1 <= k < |shops| ==> shops[k] == shops[1..][k - 1];
      rest
  }

  /** `find` returns the first match: when the shop at `k` is the first whose
      id string is `shopId`, that shop is the one found. */
  lemma {:induction false} FindShopFirst(shops: seq<Shop>, shopId: string, k: int)
    requires 0 <= k < |shops| && IntString(shops[k].id) == shopId
    requires forall j :: 0 <= j < k ==> IntString(shops[j].id) != shopId
    ensures FindShop(shops, shopId) == Some(shops[k])
    decreases k
  {
    if k > 0 {
      assert shops[1..][k - 1] == shops[k];
      assert forall j :: 0 <= j < k - 1 ==> shops[1..][j] == shops[j + 1];
      FindShopFirst(shops[1..], shopId, k - 1);
    }
  }

  /** The displayed shop name: "ALL SHOPS" for the all-shops id, else the found
      shop's name, else `fallback` (`""` in the summary, "Unknown Shop" in the export). */
  function ShopDisplayName(selectedShop: string, shops: seq<Shop>, fallback: string): (name: string)
    ensures selectedShop == AllShopsId ==> name == "ALL SHOPS"
    ensures selectedShop != AllShopsId && FindShop(shops, selectedShop).None? ==> name == fallback
    ensures var found := FindShop(shops, selectedShop);
      selectedShop != AllShopsId && found.Some? && found.value.name != "" ==> name == found.value.name
    ensures var found := FindShop(shops, selectedShop);
      selectedShop != AllShopsId && found.Some? && found.value.name == "" ==> name == fallback
    ensures fallback != "" ==> name != ""
  {
    if selectedShop == AllShopsId then "ALL SHOPS"
    else match FindShop(shops, selectedShop)
      case Some(s) => if s.name != "" then s.name else fallback
      case None => fallback
  }

  /** `categories.find((c) => c.id === selectedCategory)?.name || "All Categories"`. */
  function CategoryDisplayName(selectedCategory: string, categories: seq<Category>): (name: string)
    ensures var found := FindCategory(categories, selectedCategory);
      found.Some? && found.value.name != "" ==> name == found.value.name
    ensures var found := FindCategory(categories, selectedCategory);
      found.None? || found.value.name == "" ==> name == "All Categories"
    ensures name != ""
  {
    match FindCategory(categories, selectedCategory)
    case Some(c) => if c.name != "" then c.name else "All Categories"
    case None => "All Categories"
  }

  /** `calculateSummary`: the product count, the stock summed over every size
      cell, the number of low-stock products and the selection's display names. */
  method CalculateSummary(filtered: seq<Product>, sizes: seq<PackagingSize>, selectedShop: string,
                          shops: seq<Shop>, selectedCategory: string, categories: seq<Category>)
    returns (summary: Summary)
    ensures summary.totalProducts == |filtered|
    ensures summary.totalStock == TotalStock(filtered, sizes)
    ensures summary.lowStockItems == CountLowStock(filtered, sizes)
    ensures summary.selectedShopName == ShopDisplayName(selectedShop, shops, "")
    ensures summary.selectedCategoryName == CategoryDisplayName(selectedCategory, categories)
  {
    var totalStock := 0;
    var i := 0;
    while i < |filtered|
      invariant 0 <= i <= |filtered|
      invariant totalStock == TotalStock(filtered[..i], sizes)
    {
      var product := filtered[i];
      var j := 0;
      while j < |sizes|
        invariant 0 <= j <= |sizes|
        invariant totalStock == TotalStock(filtered[..i], sizes) + RowStock(product, sizes[..j])
      {
        assert sizes[..j + 1][..j] == sizes[..j];
        totalStock := totalStock + Qty(product, sizes[j].psid);
        j := j + 1;
      }
      assert sizes[..j] == sizes;
      assert filtered[..i + 1][..i] == filtered[..i];
      i := i + 1;
    }
    assert filtered[..i] == filtered;

    var lowStockItems := 0;
    i := 0;
    while i < |filtered|
      invariant 0 <= i <= |filtered|
      invariant lowStockItems == CountLowStock(filtered[..i], sizes)
    {
      var product := filtered[i];
      var isLowStock := false;
      var j := 0;
      while j < |sizes|
        invariant 0 <= j <= |sizes|
        invariant isLowStock <==> exists k :: 0 <= k < j && Qty(product, sizes[k].psid) < LowStockThreshold
      {
        if Qty(product, sizes[j].psid) < LowStockThreshold {
          isLowStock := true;
        }
        j := j + 1;
      }
      assert filtered[..i + 1][..i] == filtered[..i];
      if isLowStock {
        lowStockItems := lowStockItems + 1;
      }
      i := i + 1;
    }
    assert filtered[..i] == filtered;

    summary := Summary(|filtered|, totalStock, lowStockItems,
      ShopDisplayName(selectedShop, shops, ""), CategoryDisplayName(selectedCategory, categories));
  }

  /** Low-stock products are at most all products. */
  lemma {:induction false} LowStockAtMostProducts(products: seq<Product>, sizes: seq<PackagingSize>)
    ensures CountLowStock(products, sizes) <= |products|
    decreases |products|
  {
    if products != [] {
      LowStockAtMostProducts(products[..|products| - 1], sizes);
    }
  }

  /** The sum over the listed sizes of each size's column sum. */
  function SizeColumnSums(products: seq<Product>, sizes: seq<PackagingSize>): int
    decreases |sizes|
  {
    if sizes == [] then 0 else SizeColumnSums(products, sizes[..|sizes| - 1]) + ColumnSum(products, sizes[|sizes| - 1].psid)
  }

  /** Summing the grid by products or by size columns gives the same total stock. */
  lemma {:induction false} TotalStockByColumns(products: seq<Product>, sizes: seq<PackagingSize>)
    ensures TotalStock(products, sizes) == SizeColumnSums(products, sizes)
    decreases |products|
  {
    if products != [] {
      var init, last := products[..|products| - 1], products[|products| - 1];
      assert products == init + [last];
      TotalStockByColumns(init, sizes);
      SizeColumnSumsStep(init, last, sizes);
      assert TotalStock(products, sizes) == TotalStock(init, sizes) + RowStock(last, sizes);
    } else {
      SizeColumnSumsOfNothing(sizes);
    }
  }

  lemma {:induction false} SizeColumnSumsOfNothing(sizes: seq<PackagingSize>)
    ensures SizeColumnSums([], sizes) == 0
    decreases |sizes|
  {
    if sizes != [] {
      SizeColumnSumsOfNothing(sizes[..|sizes| - 1]);
    }
  }

  lemma {:induction false} SizeColumnSumsStep(init: seq<Product>, last: Product, sizes: seq<PackagingSize>)
    ensures SizeColumnSums(init + [last], sizes) == SizeColumnSums(init, sizes) + RowStock(last, sizes)
    decreases |sizes|
  {
    if sizes != [] {
      var products := init + [last];
      assert products[..|products| - 1] == init;
      SizeColumnSumsStep(init, last, sizes[..|sizes| - 1]);
    }
  }

  /** The sum of the cells of the export's TOTAL row. */
  function TotalRowSum(totals: map<int, int>, sizes: seq<PackagingSize>): int
    decreases |sizes|
  {
    if sizes == [] then 0 else TotalRowSum(totals, sizes[..|sizes| - 1]) + ValueOrZero(totals, sizes[|sizes| - 1].psid)
  }

  /** With distinct size ids, the cells of the TOTAL row built from the filtered
      totals add up to the summary's total stock. */
  lemma TotalRowMatchesSummary(filtered: seq<Product>, sizes: seq<PackagingSize>)
    requires filtered != [] && DistinctPsids(sizes)
    ensures TotalRowSum(FilteredTotals(filtered, sizes), sizes) == TotalStock(filtered, sizes)
  {
    TotalStockByColumns(filtered, sizes);
    TotalRowSumIsColumnSums(filtered, sizes, |sizes|);
    assert sizes[..|sizes|] == sizes;
  }

  lemma {:induction false} TotalRowSumIsColumnSums(filtered: seq<Product>, sizes: seq<PackagingSize>, n: nat)
    requires filtered != [] && DistinctPsids(sizes) && n <= |sizes|
    ensures TotalRowSum(FilteredTotals(filtered, sizes), sizes[..n]) == SizeColumnSums(filtered, sizes[..n])
    decreases n
  {
    if n > 0 {
      assert sizes[..n][..n - 1] == sizes[..n - 1];
      TotalRowSumIsColumnSums(filtered, sizes, n - 1);
      TotalsAreColumnSums(filtered, sizes, n - 1);
    }
  }

  // ---------------------------------------------------------------------------
  // Export precondition

  /** The argument `handleExportToExcel` passes to `exportToExcel`, or `None` when
      it alerts "No data to export!" instead: no filtered products, or no stock data. */
  function ExportRequest(filtered: seq<Product>, stockData: Option<StockData>, selectedShop: string, shops: seq<Shop>,
                         selectedCategory: string, categories: seq<Category>, selectedDate: string): (request: Option<ExportData>)
    ensures request.None? <==> filtered == [] || stockData.None?
    ensures request.Some? ==>
      && request.value.products == filtered
      && request.value.packagingSizes == stockData.value.packagingSizes
      && request.value.totals == FilteredTotals(filtered, stockData.value.packagingSizes)
      && request.value.shopName == ShopDisplayName(selectedShop, shops, "Unknown Shop")
      && request.value.shopName != ""
      && request.value.categoryName == CategoryDisplayName(selectedCategory, categories)
      && request.value.date == selectedDate
  {
    if |filtered| == 0 || stockData.None? then None
    else Some(ExportData(filtered, stockData.value.packagingSizes,
      ShopDisplayName(selectedShop, shops, "Unknown Shop"),
      CategoryDisplayName(selectedCategory, categories),
      selectedDate, FilteredTotals(filtered, stockData.value.packagingSizes)))
  }

  /** An export that is attempted has a data row for every filtered product, and
      with distinct size ids its TOTAL row holds each size's column sum. */
  lemma ExportedSheetMatchesView(filtered: seq<Product>, stockData: Option<StockData>, selectedShop: string, shops: seq<Shop>,
                                 selectedCategory: string, categories: seq<Category>, selectedDate: string)
    requires filtered != [] && stockData.Some?
    requires DistinctPsids(stockData.value.packagingSizes)
    ensures var request := ExportRequest(filtered, stockData, selectedShop, shops, selectedCategory, categories, selectedDate);
      var sizes := stockData.value.packagingSizes;
      var rows := MainData(request.value);
      && |rows| == |filtered| + 2
      && forall j :: 0 <= j < |sizes| ==> rows[|rows| - 1][j + 1] == Number(ColumnSum(filtered, sizes[j].psid))
  {
    var request := ExportRequest(filtered, stockData, selectedShop, shops, selectedCategory, categories, selectedDate);
    var sizes := stockData.value.packagingSizes;
    MainDataLayout(request.value);
    forall j | 0 <= j < |sizes| ensures ValueOrZero(request.value.totals, sizes[j].psid) == ColumnSum(filtered, sizes[j].psid) {
      TotalsAreColumnSums(filtered, sizes, j);
    }
  }

  // ---------------------------------------------------------------------------
  // Page state

  /** What one render of the page derives from its state and the fetched data. */
  datatype View = View(
    filtered: seq<Product>,
    page: seq<Product>,
    totalPages: nat,
    totals: map<int, int>,
    summary: Summary)

  /** What pressing "Export to Excel" led to. */
  datatype ExportOutcome = NothingToExport | Exported(workbook: Workbook) | ExportFailed

  /** The component state of the dashboard page. */
  class DashboardState {
    var selectedShop: string
    var selectedCategory: string
    var selectedDate: string
    var searchQuery: string
    var currentPage: int
    var itemsPerPage: int
    var isExporting: bool

    /** Every page number handed to the state is at least 1, the page size is
        one of the selector's positive options, and no export is in progress
        between events. */
    ghost predicate Valid()
      reads this
    {
      currentPage >= 1 && itemsPerPage >= 1 && !isExporting
    }

    /** The initial state; `today` is `getTodayDate()`. */
    constructor (today: string)
      ensures Valid()
      ensures selectedShop == AllShopsId && selectedCategory == "1" && selectedDate == today
      ensures searchQuery == "" && currentPage == 1 && itemsPerPage == 25 && !isExporting
    {
      selectedShop, selectedCategory, selectedDate := AllShopsId, "1", today;
      searchQuery, currentPage, itemsPerPage, isExporting := "", 1, 25, false;
    }

    method HandleShopChange(shopId: string)
      requires Valid()
      modifies this`selectedShop, this`currentPage
      ensures Valid() && selectedShop == shopId && currentPage == 1
    {
      selectedShop := shopId;
      currentPage := 1;
    }

    method HandleCategoryChange(categoryId: string)
      requires Valid()
      modifies this`selectedCategory, this`currentPage
      ensures Valid() && selectedCategory == categoryId && currentPage == 1
    {
      selectedCategory := categoryId;
      currentPage := 1;
    }

    method HandleDateChange(date: string)
      requires Valid()
      modifies this`selectedDate, this`currentPage
      ensures Valid() && selectedDate == date && currentPage == 1
    {
      selectedDate := date;
      currentPage := 1;
    }

    method HandleSearchChange(query: string)
      requires Valid()
      modifies this`searchQuery, this`currentPage
      ensures Valid() && searchQuery == query && currentPage == 1
    {
      searchQuery := query;
      currentPage := 1;
    }

    /** Every caller in the table passes a page of at least 1. */
    method HandlePageChange(page: int)
      requires Valid() && page >= 1
      modifies this`currentPage
      ensures Valid() && currentPage == page
    {
      currentPage := page;
    }

    /** The page-size selector offers 10, 25, 50 and 100. */
    method HandleItemsPerPageChange(items: int)
      requires Valid() && items >= 1
      modifies this`itemsPerPage, this`currentPage
      ensures Valid() && itemsPerPage == items && currentPage == 1
    {
      itemsPerPage := items;
      currentPage := 1;
    }

    /** One render: the filtered list, the visible page, the page count, the
        per-size totals over the whole filtered list and the summary. */
    method Render(stockData: Option<StockData>, shops: seq<Shop>, categories: seq<Category>) returns (view: View)
      requires Valid()
      ensures view.filtered == FilteredProducts(stockData, searchQuery)
      ensures view.page == Paginate(view.filtered, currentPage, itemsPerPage)
      ensures view.totalPages == TotalPages(|view.filtered|, itemsPerPage)
      ensures view.totals == FilteredTotals(view.filtered, SizesOf(stockData))
      ensures view.summary.totalProducts == |view.filtered|
      ensures view.summary.totalStock == TotalStock(view.filtered, SizesOf(stockData))
      ensures view.summary.lowStockItems == CountLowStock(view.filtered, SizesOf(stockData))
      ensures view.summary.selectedShopName == ShopDisplayName(selectedShop, shops, "")
      ensures view.summary.selectedCategoryName == CategoryDisplayName(selectedCategory, categories)
    {
      var filtered := FilteredProducts(stockData, searchQuery);
      var totals := CalculateFilteredTotals(filtered, SizesOf(stockData));
      var summary := CalculateSummary(filtered, SizesOf(stockData), selectedShop, shops, selectedCategory, categories);
      view := View(filtered, Paginate(filtered, currentPage, itemsPerPage), TotalPages(|filtered|, itemsPerPage), totals, summary);
    }

    /** `handleExportToExcel`; `generatedOn` is the current time and
        `libraryCompletes` whether the spreadsheet library calls complete. */
    method HandleExportToExcel(stockData: Option<StockData>, shops: seq<Shop>, categories: seq<Category>,
                               generatedOn: string, libraryCompletes: bool)
      returns (outcome: ExportOutcome)
      requires Valid()
      modifies this`isExporting
      ensures Valid() && !isExporting
      ensures var request := ExportRequest(FilteredProducts(stockData, searchQuery), stockData, selectedShop, shops,
                                           selectedCategory, categories, selectedDate);
        && (outcome == NothingToExport <==> request.None?)
        && (outcome.Exported? ==> Some(outcome.workbook) == ExportToExcel(request.value, generatedOn, libraryCompletes).written)
        && (request.Some? ==> (outcome.Exported? <==> libraryCompletes))
    {
      var filtered := FilteredProducts(stockData, searchQuery);
      var request := ExportRequest(filtered, stockData, selectedShop, shops, selectedCategory, categories, selectedDate);
      if request.None? {
        return NothingToExport;
      }
      isExporting := true;
      var result := ExportToExcel(request.value, generatedOn, libraryCompletes);
      if result.ok {
        outcome := Exported(result.written.value);
      } else {
        outcome := ExportFailed;
      }
      isExporting := false;
    }
  }

  /** After any selector change the table shows the first page: the first
      `itemsPerPage` filtered products, which is never empty while some product
      passes the filter. */
  lemma FirstPageAfterReset<T>(filtered: seq<T>, itemsPerPage: int)
    requires itemsPerPage >= 1
    ensures Paginate(filtered, 1, itemsPerPage) == filtered[..Min(itemsPerPage, |filtered|)]
    ensures filtered != [] ==> Paginate(filtered, 1, itemsPerPage) != []
  {
  }
}
