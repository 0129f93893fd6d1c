/** Worked examples of the pipeline on a two-size category. */
module Scenarios {
  import opened Wrappers
  import opened Strings
  import opened Records
  import opened ClosingStock
  import opened Dashboard

  function Sizes(): seq<PackagingSize> {
    [PackagingSize(101, "180ml", "Quarter", 1), PackagingSize(102, "750ml", "Full", 1)]
  }

  function P1(): Product { Product(1, 1, Some("P1"), None, None, None, map[101 := 5, 102 := 0]) }

  function P2(): Product { Product(2, 2, Some("P2"), None, None, None, map[101 := 0, 102 := 12]) }

  lemma SizesFacts()
    ensures PsidsOf(Sizes()) == {101, 102}
    ensures Occurrences(Sizes(), 101) == 1 && Occurrences(Sizes(), 102) == 1
  {
    assert Sizes()[0].psid in PsidsOf(Sizes());
    assert Sizes()[1].psid in PsidsOf(Sizes());
    forall x | x in PsidsOf(Sizes()) ensures x == 101 || x == 102 {
      var k :| 0 <= k < 2 && Sizes()[k].psid == x;
    }
    OccurrencesDistinct(Sizes(), 0);
    OccurrencesDistinct(Sizes(), 1);
  }

  function Data(): StockData { StockData([P1(), P2()], Sizes(), Some(map[]), Pagination(2, 1)) }

  /** An empty query shows both products on page 1 in order, with totals
      101 -> 5 and 102 -> 12. */
  lemma ScenarioEmptyQuery()
    ensures FilteredProducts(Some(Data()), "") == [P1(), P2()]
    ensures Paginate(FilteredProducts(Some(Data()), ""), 1, 25) == [P1(), P2()]
    ensures FilteredTotals([P1(), P2()], Sizes()) == map[101 := 5, 102 := 12]
  {
    TrimUntouched("");
    TwoProductTotals();
  }

  /** Both sizes sum over both products. */
  lemma TwoProductTotals()
    ensures FilteredTotals([P1(), P2()], Sizes()) == map[101 := 5, 102 := 12]
  {
    assert [P1(), P2()][..|[P1(), P2()]| - 1] == [P1()];
    assert [P1()][..0] == [];
    assert ColumnSum([P1(), P2()], 101) == 5 && ColumnSum([P1(), P2()], 102) == 12;
    SizesFacts();
  }

  /** The query "p1" keeps only the product named "P1": totals 101 -> 5 and
      102 -> 0, one page. */
  lemma ScenarioQueryP1()
    ensures FilteredProducts(Some(Data()), "p1") == [P1()]
    ensures FilteredTotals([P1()], Sizes()) == map[101 := 5, 102 := 0]
    ensures TotalPages(1, 25) == 1
  {
    QueryIsNormal("p1");
    KeepOnlyP1();
    SingleProductTotals();
  }

  /** A lower-case query without surrounding whitespace reaches the filter unchanged. */
  lemma QueryIsNormal(q: string)
    requires |q| == 2 && 'a' <= q[0] <= 'z' && '0' <= q[1] <= '9'
    ensures Trim(q) == q && Trim(Lower(q)) == q
  {
    LowerUntouched(q);
    TrimUntouched(q);
  }

  /** "P1" contains "p1" once lower-cased; "P2" does not. */
  lemma KeepOnlyP1()
    ensures KeepMatching([P1(), P2()], "p1") == [P1()]
  {
    assert Lower("P1") == "p1";
    assert Lower("P2") == "p2";
    assert OccursAt("p1", "p1", 0);
    assert Matches(P1(), "p1");
    assert !Contains("p2", "p1") by {
      assert "p2"[0..2] == "p2";
      assert "p2"[1] != "p1"[1];
      assert forall i :: 0 <= i <= 0 ==> !OccursAt("p2", "p1", i);
    }
    assert !Matches(P2(), "p1");
    assert [P1(), P2()][1..] == [P2()];
    assert [P2()][1..] == [];
  }

  /** The totals of the single product P1 are its own cells. */
  lemma SingleProductTotals()
    ensures FilteredTotals([P1()], Sizes()) == map[101 := 5, 102 := 0]
  {
    assert [P1()][..0] == [];
    SizesFacts();
  }

  /** Thirty filtered rows with ten per page make three pages; page 4 is an
      empty slice. */
  lemma ScenarioFourthPage(rows: seq<Product>)
    requires |rows| == 30
    ensures TotalPages(|rows|, 10) == 3
    ensures Paginate(rows, 4, 10) == []
  {
  }

  /** With nothing passing the filter no export is requested. */
  lemma ScenarioNothingToExport(shops: seq<Shop>, categories: seq<Category>, date: string)
    ensures ExportRequest(FilteredProducts(Some(Data()), "zzz"), Some(Data()), "6", shops, "1", categories, date).None?
  {
    LowerUntouched("zzz");
    TrimUntouched("zzz");
    KeepNothing();
  }

  /** A needle longer than every name matches no product. */
  lemma KeepNothing()
    ensures KeepMatching([P1(), P2()], "zzz") == []
  {
    assert |Lower("P1")| == 2 && |Lower("P2")| == 2;
    assert !Contains(Lower("P1"), "zzz") && !Contains(Lower("P2"), "zzz");
    assert !Matches(P1(), "zzz") && !Matches(P2(), "zzz");
    assert [P1(), P2()][1..] == [P2()];
    assert [P2()][1..] == [];
  }
}
