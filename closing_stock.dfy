/** The closing-stock query of `useClosingStock`: it turns the stock endpoint's
    raw rows and the selected category's packaging sizes into one product
    record per row, with one numeric column per size. */
module ClosingStock {
  import opened Wrappers
  import opened Records

  /** One raw row of `closing_stocks`. A size cell is absent from `cells` when the
      row has no such key, and `None` when the server sent `null`. */
  datatype RawStock = RawStock(
    stockId: int,
    productId: int,
    productName: Option<string>,
    alias1: Option<string>,
    alias2: Option<string>,
    alias3: Option<string>,
    cells: map<int, Option<int>>)

  /** The `data` object of the stock response. */
  datatype ResponseBody = ResponseBody(closingStocks: Option<seq<RawStock>>, totals: Option<map<int, int>>)

  /** The parsed stock response: its `status` flag and its optional `data`. */
  datatype Response = Response(status: bool, body: Option<ResponseBody>)

  datatype Pagination = Pagination(total: int, totalPages: int)

  /** What the query resolves to. `totals` is absent in the empty-shop result. */
  datatype StockData = StockData(
    products: seq<Product>,
    packagingSizes: seq<PackagingSize>,
    totals: Option<map<int, int>>,
    pagination: Pagination)

  const FetchError := "Failed to fetch stock data"

  /** The result for an unselected shop. */
  const NoShopData := StockData([], [], None, Pagination(0, 1))

  /** `stock[psid] || 0`: an absent, `null` or zero cell becomes 0. */
  function CellOrZero(stock: RawStock, psid: int): int {
    if psid in stock.cells && stock.cells[psid].Some? then stock.cells[psid].value else 0
  }

  /** `categories.find((cat) => cat.id === categoryId)`: the first category with that id. */
  function FindCategory(categories: seq<Category>, categoryId: string): (found: Option<Category>)
    ensures found.Some? ==> found.value in categories && found.value.id == categoryId
    ensures found.None? <==> forall k :: 0 <= k < |categories| ==> categories[k].id != categoryId
    ensures found.Some? ==> exists k :: 0 <= k < |categories| && categories[k] == found.value &&
                                        forall j :: 0 <= j < k ==> categories[j].id != categoryId
    decreases |categories|
  {
    if categories == [] then None
    else if categories[0].id == categoryId then Some(categories[0])
    else
      var rest := FindCategory(categories[1..], categoryId);
      assert forall k :: 1 <= k < |categories| ==> categories[k] == categories[1..][k - 1];
      rest
  }

  /** `selectedCategory?.packaging_size || []`. */
  function PackagingSizesFor(categories: seq<Category>, categoryId: string): seq<PackagingSize> {
    match FindCategory(categories, categoryId)
    case Some(c) => c.packagingSize
    case None => []
  }

  /** The product record built from one raw row: the identity and search fields
      copied, and one column per size id of `sizes`. */
  function NormalisedRow(stock: RawStock, sizes: seq<PackagingSize>): Product {
    Product(stock.stockId, stock.productId, stock.productName, stock.alias1, stock.alias2, stock.alias3,
      map psid | psid in PsidsOf(sizes) :: CellOrZero(stock, psid))
  }

  /** The body of the `closing_stocks.map` callback: the product object is created
      with its identity fields, then each size column is assigned in turn. */
  method NormaliseRow(stock: RawStock, sizes: seq<PackagingSize>) returns (product: Product)
    ensures product == NormalisedRow(stock, sizes)
  {
    product := Product(stock.stockId, stock.productId, stock.productName, stock.alias1, stock.alias2, stock.alias3, map[]);
    var j := 0;
    while j < |sizes|
      invariant 0 <= j <= |sizes|
      invariant product == NormalisedRow(stock, sizes[..j])
    {
      var psid := sizes[j].psid;
      PsidsOfPrefixStep(sizes, j);
      product := product.(columns := product.columns[psid := CellOrZero(stock, psid)]);
      j := j + 1;
    }
    assert sizes[..j] == sizes;
  }

  /** The query function of `useClosingStock`, with the HTTP response given as a
      parameter. */
  method ClosingStockQuery(shopId: string, categoryId: string, categories: seq<Category>, response: Response)
    returns (r: Result<StockData, string>)
    ensures shopId == "" ==> r == Success(NoShopData)
    ensures shopId != "" ==>
      (r.Success? <==> response.status && response.body.Some? && response.body.value.closingStocks.Some?)
    ensures shopId != "" && r.Failure? ==> r.error == FetchError
    ensures shopId != "" && r.Success? ==>
      var rows := response.body.value.closingStocks.value;
      && r.value.packagingSizes == PackagingSizesFor(categories, categoryId)
      && |r.value.products| == |rows|
      && (forall k :: 0 <= k < |rows| ==> r.value.products[k] == NormalisedRow(rows[k], r.value.packagingSizes))
      && r.value.totals == Some(response.body.value.totals.GetOr(map[]))
      && r.value.pagination == Pagination(|rows|, 1)
  {
    if shopId == "" {
      return Success(NoShopData);
    }
    var packagingSizes := PackagingSizesFor(categories, categoryId);
    if response.status && response.body.Some? && response.body.value.closingStocks.Some? {
      var rows := response.body.value.closingStocks.value;
      var products: seq<Product> := [];
      var i := 0;
      while i < |rows|
        invariant 0 <= i <= |rows|
        invariant |products| == i
        invariant forall k :: 0 <= k < i ==> products[k] == NormalisedRow(rows[k], packagingSizes)
      {
        var product := NormaliseRow(rows[i], packagingSizes);
        products := products + [product];
        i := i + 1;
      }
      return Success(StockData(products, packagingSizes, Some(response.body.value.totals.GetOr(map[])),
        Pagination(|products|, 1)));
    }
    return Failure(FetchError);
  }

  /** Normalisation completeness: a normalised row has a column for every
      packaging size and no other, each holding the raw cell or 0, and it
      copies the identity and search fields of its raw row. */
  lemma NormalisedRowColumns(stock: RawStock, sizes: seq<PackagingSize>)
    ensures var p := NormalisedRow(stock, sizes);
      && p.columns.Keys == PsidsOf(sizes)
      && (forall k :: 0 <= k < |sizes| ==> Qty(p, sizes[k].psid) == CellOrZero(stock, sizes[k].psid))
      && (forall psid :: psid !in PsidsOf(sizes) ==> Qty(p, psid) == 0)
      && p.stockId == stock.stockId && p.productId == stock.productId
      && p.productName == stock.productName
      && p.alias1 == stock.alias1 && p.alias2 == stock.alias2 && p.alias3 == stock.alias3
  {
  }

  /** The normalised quantities sum like the raw cells read as numbers, so the
      dashboard totals are the totals of the raw response. */
  lemma {:induction false} NormalisedColumnSum(rows: seq<RawStock>, sizes: seq<PackagingSize>, products: seq<Product>, psid: int)
    requires |products| == |rows|
    requires forall k :: 0 <= k < |rows| ==> products[k] == NormalisedRow(rows[k], sizes)
    requires psid in PsidsOf(sizes)
    ensures ColumnSum(products, psid) == RawColumnSum(rows, psid)
    decreases |rows|
  {
    if rows != [] {
      NormalisedColumnSum(rows[..|rows| - 1], sizes, products[..|products| - 1], psid);
    }
  }

  /** The sum of `stock[psid] || 0` over the raw rows. */
  function RawColumnSum(rows: seq<RawStock>, psid: int): int
    decreases |rows|
  {
    if rows == [] then 0 else RawColumnSum(rows[..|rows| - 1], psid) + CellOrZero(rows[|rows| - 1], psid)
  }
}
