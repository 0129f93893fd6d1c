/** The records the inventory pipeline passes around, and the per-size
    arithmetic that the normaliser, the dashboard and the export share. */
module Records {
  import opened Wrappers

  /** One packaging size of a category (a bottle volume), keyed by `psid`. */
  datatype PackagingSize = PackagingSize(psid: int, size: string, sizeTitle: string, categoryId: int)

  /** A category as the category registry delivers it: its id is already a string. */
  datatype Category = Category(id: string, name: string, packagingSize: seq<PackagingSize>)

  /** A shop of the shop registry; only the id and the name are read by the core. */
  datatype Shop = Shop(id: int, name: string)

  /** One normalised product row: identity, the searchable name and aliases
      (absent fields are `None`), and one quantity per packaging-size id. */
  datatype Product = Product(
    stockId: int,
    productId: int,
    productName: Option<string>,
    alias1: Option<string>,
    alias2: Option<string>,
    alias3: Option<string>,
    columns: map<int, int>)

  /** `m[key] || 0` on a numeric record. */
  function ValueOrZero(m: map<int, int>, key: int): int {
    if key in m then m[key] else 0
  }

  /** `product[psid] || 0`: a missing column reads as zero. */
  function Qty(p: Product, psid: int): int {
    ValueOrZero(p.columns, psid)
  }

  /** The set of size ids named by a packaging-size list. */
  function PsidsOf(sizes: seq<PackagingSize>): set<int> {
    set k | 0 <= k < |sizes| :: sizes[k].psid
  }

  /** How many entries of `sizes` carry the id `psid`. */
  function Occurrences(sizes: seq<PackagingSize>, psid: int): nat
    decreases |sizes|
  {
    if sizes == [] then 0
    else Occurrences(sizes[..|sizes| - 1], psid) + (if sizes[|sizes| - 1].psid == psid then 1 else 0)
  }

  /** No size id is listed twice (the usual shape of a category). */
  predicate DistinctPsids(sizes: seq<PackagingSize>) {
    forall a, b :: 0 <= a < b < |sizes| ==> sizes[a].psid != sizes[b].psid
  }

  /** The column sum of `psid` over `products`, missing cells counted as 0. */
  function ColumnSum(products: seq<Product>, psid: int): int
    decreases |products|
  {
    if products == [] then 0
    else ColumnSum(products[..|products| - 1], psid) + Qty(products[|products| - 1], psid)
  }

  /** An id occurs in the list exactly when it is one of the list's ids. */
  lemma {:induction false} OccurrencesPositive(sizes: seq<PackagingSize>, psid: int)
    ensures Occurrences(sizes, psid) > 0 <==> psid in PsidsOf(sizes)
    decreases |sizes|
  {
    if sizes != [] {
      var init := sizes[..|sizes| - 1];
      OccurrencesPositive(init, psid);
      assert PsidsOf(sizes) == PsidsOf(init) + {sizes[|sizes| - 1].psid} by {
        assert forall k :: 0 <= k < |init| ==> init[k] == sizes[k];
      }
    }
  }

  /** With distinct ids, every listed id occurs exactly once. */
  lemma {:induction false} OccurrencesDistinct(sizes: seq<PackagingSize>, k: int)
    requires DistinctPsids(sizes)
    requires 0 <= k < |sizes|
    ensures Occurrences(sizes, sizes[k].psid) == 1
    decreases |sizes|
  {
    var init := sizes[..|sizes| - 1];
    var psid := sizes[k].psid;
    if k == |sizes| - 1 {
      assert psid !in PsidsOf(init);
      OccurrencesPositive(init, psid);
    } else {
      OccurrencesDistinct(init, k);
    }
  }

  /** Column sums split over a concatenation of product lists. */
  lemma {:induction false} ColumnSumAppend(a: seq<Product>, b: seq<Product>, psid: int)
    ensures ColumnSum(a + b, psid) == ColumnSum(a, psid) + ColumnSum(b, psid)
    decreases |b|
  {
    if b == [] {
      assert a + b == a;
    } else {
      var bInit := b[..|b| - 1];
      assert (a + b)[..|a + b| - 1] == a + bInit;
      ColumnSumAppend(a, bInit, psid);
    }
  }

  /** Extending a prefix of `sizes` by one entry adds that entry's id. */
  lemma PsidsOfPrefixStep(sizes: seq<PackagingSize>, j: nat)
    requires j < |sizes|
    ensures PsidsOf(sizes[..j + 1]) == PsidsOf(sizes[..j]) + {sizes[j].psid}
  {
    assert forall k :: 0 <= k < j ==> sizes[..j + 1][k] == sizes[..j][k];
  }

  /** Extending a prefix of `sizes` by one entry counts that entry once more. */
  lemma OccurrencesPrefixStep(sizes: seq<PackagingSize>, j: nat, psid: int)
    requires j < |sizes|
    ensures Occurrences(sizes[..j + 1], psid) == Occurrences(sizes[..j], psid) + (if sizes[j].psid == psid then 1 else 0)
  {
    assert sizes[..j + 1][..j] == sizes[..j];
  }
}
