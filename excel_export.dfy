/** `exportToExcel`: the arrays of arrays handed to the spreadsheet library
    (the "Closing Stock" sheet, its column widths, the "Report Info" sheet),
    the file name, and the true/false result. */
module ExcelExport {
  import opened Wrappers
  import opened Strings
  import opened Records

  /** A spreadsheet cell as the library receives it; `Blank` is `undefined`. */
  datatype Cell = Text(text: string) | Number(number: int) | Blank

  /** The argument object of `exportToExcel`. */
  datatype ExportData = ExportData(
    products: seq<Product>,
    packagingSizes: seq<PackagingSize>,
    shopName: string,
    categoryName: string,
    date: string,
    totals: map<int, int>)

  /** Everything the function builds before handing it to the library. */
  datatype Workbook = Workbook(
    mainData: seq<seq<Cell>>,
    colWidths: seq<int>,
    metadata: seq<seq<Cell>>,
    metadataColWidths: seq<int>,
    fileName: string)

  const ProductNameWidth := 40
  const SizeColumnWidth := 15
  const MetadataWidth := 30

  /** `["Product Name", ...packagingSizes.map((size) => size.size)]`. */
  function HeaderRow(sizes: seq<PackagingSize>): seq<Cell> {
    [Text("Product Name")] + seq(|sizes|, j requires 0 <= j < |sizes| => Text(sizes[j].size))
  }

  /** `product.product_name` as a cell. */
  function NameCell(p: Product): Cell {
    match p.productName
    case Some(name) => Text(name)
    case None => Blank
  }

  /** `[product.product_name, ...packagingSizes.map((size) => product[size.psid] || 0)]`. */
  function DataRow(p: Product, sizes: seq<PackagingSize>): seq<Cell> {
    [NameCell(p)] + seq(|sizes|, j requires 0 <= j < |sizes| => Number(Qty(p, sizes[j].psid)))
  }

  /** `["TOTAL", ...packagingSizes.map((size) => totals[size.psid] || 0)]`. */
  function TotalRow(sizes: seq<PackagingSize>, totals: map<int, int>): seq<Cell> {
    [Text("TOTAL")] + seq(|sizes|, j requires 0 <= j < |sizes| => Number(ValueOrZero(totals, sizes[j].psid)))
  }

  /** The rows of the "Closing Stock" sheet. */
  function MainData(d: ExportData): seq<seq<Cell>> {
    [HeaderRow(d.packagingSizes)]
    + seq(|d.products|, k requires 0 <= k < |d.products| => DataRow(d.products[k], d.packagingSizes))
    + [TotalRow(d.packagingSizes, d.totals)]
  }

  /** The `wch` widths of the "Closing Stock" columns. */
  function ColWidths(sizes: seq<PackagingSize>): seq<int> {
    [ProductNameWidth] + seq(|sizes|, _ => SizeColumnWidth)
  }

  /** The rows of the "Report Info" sheet; `generatedOn` is the locale-formatted
      current time. */
  function Metadata(d: ExportData, generatedOn: string): seq<seq<Cell>> {
    [ [Text("Report Information")],
      [Text("Shop:"), Text(d.shopName)],
      [Text("Category:"), Text(d.categoryName)],
      [Text("Date:"), Text(d.date)],
      [Text("Total Products:"), Number(|d.products|)],
      [Text("Generated On:"), Text(generatedOn)],
      [Text("")],
      [Text("Size Information")] ]
    + seq(|d.packagingSizes|, j requires 0 <= j < |d.packagingSizes| =>
        [Text(d.packagingSizes[j].size), Text(d.packagingSizes[j].sizeTitle)])
  }

  /** `s.replace(/\s+/g, "_")`: every maximal run of whitespace becomes one underscore. */
  function UnderscoreWhitespace(s: string): (r: string)
    ensures HasNoWhitespace(r)
    ensures |r| <= |s|
    decreases |s|
  {
    if s == [] then []
    else if IsWhitespace(s[0]) then "_" + UnderscoreWhitespace(TrimStart(s))
    else [s[0]] + UnderscoreWhitespace(s[1..])
  }

  /** The download name: the shop name with its whitespace runs joined by `_`,
      the category name and the date. */
  function FileName(shopName: string, categoryName: string, date: string): string {
    "Closing_Stock_" + UnderscoreWhitespace(shopName) + "_" + categoryName + "_" + date + ".xlsx"
  }

  function BuildWorkbook(d: ExportData, generatedOn: string): Workbook {
    Workbook(MainData(d), ColWidths(d.packagingSizes), Metadata(d, generatedOn),
      [MetadataWidth, MetadataWidth], FileName(d.shopName, d.categoryName, d.date))
  }

  /** What one call of `exportToExcel` leads to: `ok` is its return value and
      `written` the workbook handed to `writeFile` when that call completed. */
  datatype ExportResult = ExportResult(ok: bool, written: Option<Workbook>)

  /** `exportToExcel`. Building the arrays cannot fail, so the function returns
      false only when one of the library calls (`aoa_to_sheet`,
      `book_append_sheet`, `writeFile`) throws, which `libraryCompletes`
      stands for; nothing is thrown to the caller. */
  function ExportToExcel(d: ExportData, generatedOn: string, libraryCompletes: bool): (r: ExportResult)
    ensures r.ok <==> libraryCompletes
    ensures r.written.Some? <==> r.ok
    ensures r.ok ==>
      var w := r.written.value;
      && w.mainData == MainData(d)
      && w.colWidths == ColWidths(d.packagingSizes)
      && w.metadata == Metadata(d, generatedOn)
      && w.metadataColWidths == [MetadataWidth, MetadataWidth]
      && w.fileName == FileName(d.shopName, d.categoryName, d.date)
  {
    var workbook := BuildWorkbook(d, generatedOn);
    if libraryCompletes then ExportResult(true, Some(workbook)) else ExportResult(false, None)
  }

  /** No input is rejected: without products the data sheet still holds the
      header and the TOTAL row, and without packaging sizes every row is the
      name column alone. */
  lemma ExportAcceptsEmptyInput(d: ExportData, generatedOn: string)
    ensures ExportToExcel(d, generatedOn, true).ok
    ensures d.products == [] ==>
      ExportToExcel(d, generatedOn, true).written.value.mainData
        == [HeaderRow(d.packagingSizes), TotalRow(d.packagingSizes, d.totals)]
    ensures d.packagingSizes == [] ==>
      var w := ExportToExcel(d, generatedOn, true).written.value;
      && |w.mainData| == |d.products| + 2
      && w.mainData[0] == [Text("Product Name")]
      && w.mainData[|w.mainData| - 1] == [Text("TOTAL")]
      && w.colWidths == [ProductNameWidth]
      && |w.metadata| == 8
  {
    var w := ExportToExcel(d, generatedOn, true).written.value;
    MainDataLayout(d);
    if d.products == [] {
      assert MainData(d) == [HeaderRow(d.packagingSizes)] + [] + [TotalRow(d.packagingSizes, d.totals)];
    }
    if d.packagingSizes == [] {
      ColWidthsLayout(d.packagingSizes);
      MetadataLayout(d, generatedOn);
      assert w.mainData[0] == [Text("Product Name")];
    }
  }

  /** The "Closing Stock" sheet: a header row, one row per product in order and
      the TOTAL row, every row one name cell wide plus one cell per size, the
      size columns in `packagingSizes` order. */
  lemma MainDataLayout(d: ExportData)
    ensures var rows := MainData(d);
      && |rows| == |d.products| + 2
      && (forall k :: 0 <= k < |rows| ==> |rows[k]| == 1 + |d.packagingSizes|)
      && rows[0][0] == Text("Product Name")
      && (forall j :: 0 <= j < |d.packagingSizes| ==> rows[0][j + 1] == Text(d.packagingSizes[j].size))
      && (forall k :: 0 <= k < |d.products| ==> rows[k + 1][0] == NameCell(d.products[k]))
      && (forall k, j :: 0 <= k < |d.products| && 0 <= j < |d.packagingSizes| ==>
            rows[k + 1][j + 1] == Number(Qty(d.products[k], d.packagingSizes[j].psid)))
      && rows[|rows| - 1][0] == Text("TOTAL")
      && (forall j :: 0 <= j < |d.packagingSizes| ==>
            rows[|rows| - 1][j + 1] == Number(ValueOrZero(d.totals, d.packagingSizes[j].psid)))
  {
    var rows := MainData(d);
    var sizes := d.packagingSizes;
    var body := seq(|d.products|, k requires 0 <= k < |d.products| => DataRow(d.products[k], sizes));
    assert rows == [HeaderRow(sizes)] + body + [TotalRow(sizes, d.totals)];
    assert rows[0] == HeaderRow(sizes) && rows[|rows| - 1] == TotalRow(sizes, d.totals);
    HeaderRowLayout(sizes);
    TotalRowLayout(sizes, d.totals);
    forall k | 0 <= k < |d.products|
      ensures |rows[k + 1]| == 1 + |sizes| && rows[k + 1][0] == NameCell(d.products[k])
      ensures forall j :: 0 <= j < |sizes| ==> rows[k + 1][j + 1] == Number(Qty(d.products[k], sizes[j].psid))
    {
      assert rows[k + 1] == body[k];
      DataRowLayout(d.products[k], sizes);
    }
    forall k | 0 <= k < |rows| ensures |rows[k]| == 1 + |sizes| {
      if 0 < k < |rows| - 1 {
        assert |rows[(k - 1) + 1]| == 1 + |sizes|;
      }
    }
  }

  /** The header row: the name column title, then each size's label. */
  lemma HeaderRowLayout(sizes: seq<PackagingSize>)
    ensures var r := HeaderRow(sizes);
      && |r| == 1 + |sizes| && r[0] == Text("Product Name")
      && forall j :: 0 <= j < |sizes| ==> r[j + 1] == Text(sizes[j].size)
  {
  }

  /** A product row: its name, then its quantity for each size. */
  lemma DataRowLayout(p: Product, sizes: seq<PackagingSize>)
    ensures var r := DataRow(p, sizes);
      && |r| == 1 + |sizes| && r[0] == NameCell(p)
      && forall j :: 0 <= j < |sizes| ==> r[j + 1] == Number(Qty(p, sizes[j].psid))
  {
  }

  /** The TOTAL row: the label, then the total for each size. */
  lemma TotalRowLayout(sizes: seq<PackagingSize>, totals: map<int, int>)
    ensures var r := TotalRow(sizes, totals);
      && |r| == 1 + |sizes| && r[0] == Text("TOTAL")
      && forall j :: 0 <= j < |sizes| ==> r[j + 1] == Number(ValueOrZero(totals, sizes[j].psid))
  {
  }

  /** The column widths: 40 for the name column, 15 for each size column. */
  lemma ColWidthsLayout(sizes: seq<PackagingSize>)
    ensures var w := ColWidths(sizes);
      && |w| == 1 + |sizes| && w[0] == 40
      && forall j :: 1 <= j < |w| ==> w[j] == 15
  {
  }

  /** The "Report Info" sheet: eight fixed rows (the product count in the fifth)
      then one `[size, size_title]` row per packaging size, in order. */
  lemma MetadataLayout(d: ExportData, generatedOn: string)
    ensures var m := Metadata(d, generatedOn);
      && |m| == 8 + |d.packagingSizes|
      && m[1] == [Text("Shop:"), Text(d.shopName)]
      && m[4] == [Text("Total Products:"), Number(|d.products|)]
      && forall j :: 0 <= j < |d.packagingSizes| ==>
           m[8 + j] == [Text(d.packagingSizes[j].size), Text(d.packagingSizes[j].sizeTitle)]
  {
  }

  /** The run rule: a non-empty whitespace run between two parts that do not
      touch it with whitespace becomes exactly one `_`, and each part is
      replaced on its own. */
  lemma UnderscoreWhitespaceRun(x: string, w: string, y: string)
    requires w != [] && forall i :: 0 <= i < |w| ==> IsWhitespace(w[i])
    requires x == [] || !IsWhitespace(x[|x| - 1])
    requires y == [] || !IsWhitespace(y[0])
    ensures UnderscoreWhitespace(x + w + y) == UnderscoreWhitespace(x) + "_" + UnderscoreWhitespace(y)
  {
    assert x + w + y == x + (w + y);
    UnderscoreWhitespaceSplit(x, w + y);
    LeadingRun(w, y);
    JoinAfter(UnderscoreWhitespace(x), "_", UnderscoreWhitespace(y));
  }

  /** Cutting a string after a visible character cuts its replacement at the
      same place. */
  lemma {:induction false} UnderscoreWhitespaceSplit(p: string, q: string)
    requires p == [] || !IsWhitespace(p[|p| - 1])
    ensures UnderscoreWhitespace(p + q) == UnderscoreWhitespace(p) + UnderscoreWhitespace(q)
    decreases |p|
  {
    if p == [] {
      assert p + q == q;
    } else if IsWhitespace(p[0]) {
      var t := TrimStart(p);
      TrimStartBeforeVisible(p, q);
      assert (p + q)[0] == p[0];
      UnderscoreWhitespaceSplit(t, q);
      JoinAfter("_", UnderscoreWhitespace(t), UnderscoreWhitespace(q));
    } else {
      assert (p + q)[0] == p[0] && (p + q)[1..] == p[1..] + q;
      assert |p| > 1 ==> p[1..][|p| - 2] == p[|p| - 1];
      UnderscoreWhitespaceSplit(p[1..], q);
      JoinAfter([p[0]], UnderscoreWhitespace(p[1..]), UnderscoreWhitespace(q));
    }
  }

  /** Trimming the start of `p + q` stops inside `p` when `p` ends with a
      visible character; what is left of `p` is shorter and still ends with it. */
  lemma TrimStartBeforeVisible(p: string, q: string)
    requires p != [] && IsWhitespace(p[0]) && !IsWhitespace(p[|p| - 1])
    ensures var t := TrimStart(p);
      && |t| < |p| && t != [] && !IsWhitespace(t[|t| - 1])
      && TrimStart(p + q) == t + q
  {
    var t := TrimStart(p);
    assert t != [] && t[|t| - 1] == p[|p| - 1];
    TrimStartAppend(p, q);
  }

  /** Regrouping a concatenation of three parts. */
  lemma JoinAfter(h: string, a: string, b: string)
    ensures h + (a + b) == h + a + b
  {
  }

  /** A leading whitespace run becomes one `_`. */
  lemma LeadingRun(w: string, r: string)
    requires w != [] && forall i :: 0 <= i < |w| ==> IsWhitespace(w[i])
    requires r == [] || !IsWhitespace(r[0])
    ensures UnderscoreWhitespace(w + r) == "_" + UnderscoreWhitespace(r)
  {
    assert (w + r)[0] == w[0];
    TrimStartBlankPrefix(w, r);
  }

  /** A name without whitespace passes through the replacement unchanged. */
  lemma {:induction false} UnderscoreWhitespaceIdentity(s: string)
    requires HasNoWhitespace(s)
    ensures UnderscoreWhitespace(s) == s
    decreases |s|
  {
    if s != [] {
      UnderscoreWhitespaceIdentity(s[1..]);
    }
  }

  /** Replacing whitespace runs twice is the same as once. */
  lemma UnderscoreWhitespaceIdempotent(s: string)
    ensures UnderscoreWhitespace(UnderscoreWhitespace(s)) == UnderscoreWhitespace(s)
  {
    UnderscoreWhitespaceIdentity(UnderscoreWhitespace(s));
  }

  /** The visible characters of the shop name survive, in order: dropping the
      underscores from the file-name segment gives the shop name with its
      whitespace and underscores dropped. */
  lemma {:induction false} UnderscoreWhitespaceKeepsName(s: string)
    ensures Visible(UnderscoreWhitespace(s)) == Visible(s)
    decreases |s|
  {
    if s != [] {
      if IsWhitespace(s[0]) {
        var t := TrimStart(s);
        UnderscoreWhitespaceKeepsName(t);
        VisibleDropsWhitespacePrefix(s, |s| - |t|);
      } else {
        UnderscoreWhitespaceKeepsName(s[1..]);
      }
    }
  }

  /** The characters of `s` other than whitespace and `_`, in order. */
  function Visible(s: string): string
    decreases |s|
  {
    if s == [] then []
    else (if IsWhitespace(s[0]) || s[0] == '_' then [] else [s[0]]) + Visible(s[1..])
  }

  lemma {:induction false} VisibleDropsWhitespacePrefix(s: string, n: nat)
    requires n <= |s|
    requires forall i :: 0 <= i < n ==> IsWhitespace(s[i])
    ensures Visible(s) == Visible(s[n..])
    decreases n
  {
    if n > 0 {
      VisibleDropsWhitespacePrefix(s[1..], n - 1);
      assert s[1..][n - 1..] == s[n..];
    }
  }

  /** The file name is `Closing_Stock_<shop>_<category>_<date>.xlsx` with a
      whitespace-free shop segment; a shop name without whitespace appears verbatim. */
  lemma FileNameShape(shopName: string, categoryName: string, date: string)
    ensures var name := FileName(shopName, categoryName, date);
      && name[..14] == "Closing_Stock_"
      && name[|name| - 5..] == ".xlsx"
      && HasNoWhitespace(name[14..14 + |UnderscoreWhitespace(shopName)|])
      && (HasNoWhitespace(shopName) ==>
            name == "Closing_Stock_" + shopName + "_" + categoryName + "_" + date + ".xlsx")
  {
    var seg := UnderscoreWhitespace(shopName);
    var head := "Closing_Stock_" + seg;
    var body := head + "_" + categoryName + "_" + date;
    var name := FileName(shopName, categoryName, date);
    assert name == body + ".xlsx";
    assert name[|name| - 5..] == ".xlsx" by {
      assert |name| - 5 == |body|;
    }
    assert name[..|head|] == head;
    assert name[..14] == head[..14] == "Closing_Stock_";
    assert name[14..14 + |seg|] == head[14..] == seg;
    if HasNoWhitespace(shopName) {
      UnderscoreWhitespaceIdentity(shopName);
    }
  }

  /** A shop name with a whitespace run inside it: the run becomes one `_`
      between the two parts, each part replaced on its own. */
  lemma FileNameWithRun(x: string, w: string, y: string, categoryName: string, date: string)
    requires w != [] && forall i :: 0 <= i < |w| ==> IsWhitespace(w[i])
    requires x == [] || !IsWhitespace(x[|x| - 1])
    requires y == [] || !IsWhitespace(y[0])
    ensures FileName(x + w + y, categoryName, date)
      == "Closing_Stock_" + (UnderscoreWhitespace(x) + "_" + UnderscoreWhitespace(y))
         + "_" + categoryName + "_" + date + ".xlsx"
  {
    UnderscoreWhitespaceRun(x, w, y);
  }

  /** The download name when the dashboard exports all shops. */
  lemma AllShopsFileName(shopName: string, categoryName: string, date: string)
    requires shopName == "ALL SHOPS"
    ensures FileName(shopName, categoryName, date)
      == "Closing_Stock_ALL_SHOPS_" + categoryName + "_" + date + ".xlsx"
  {
    assert UnderscoreWhitespace(shopName) == "ALL_SHOPS" by {
      assert shopName == "ALL" + " " + "SHOPS";
      assert "ALL_SHOPS" == "ALL" + "_" + "SHOPS";
      SpacedNameSegment("ALL", "SHOPS");
    }
  }

  /** The download name when the dashboard cannot find the selected shop. */
  lemma UnknownShopFileName(shopName: string, categoryName: string, date: string)
    requires shopName == "Unknown Shop"
    ensures FileName(shopName, categoryName, date)
      == "Closing_Stock_Unknown_Shop_" + categoryName + "_" + date + ".xlsx"
  {
    assert UnderscoreWhitespace(shopName) == "Unknown_Shop" by {
      assert shopName == "Unknown" + " " + "Shop";
      assert "Unknown_Shop" == "Unknown" + "_" + "Shop";
      SpacedNameSegment("Unknown", "Shop");
    }
  }

  /** Two words without whitespace joined by one space give the words joined
      by `_`. */
  lemma SpacedNameSegment(x: string, y: string)
    requires x != [] && y != [] && HasNoWhitespace(x) && HasNoWhitespace(y)
    ensures UnderscoreWhitespace(x + " " + y) == x + "_" + y
  {
    UnderscoreWhitespaceRun(x, " ", y);
    UnderscoreWhitespaceIdentity(x);
    UnderscoreWhitespaceIdentity(y);
  }
}
