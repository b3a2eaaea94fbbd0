/** The admin product table: a case-insensitive search over brand, model and
    category, and six rows per page. */
module AdminProducts {
  import opened Common
  import Pagination

  const PageSize: nat := 6

  /** An optional field matches when it is present and its lower-cased text
      contains the lower-cased query (`p.brand?.toLowerCase().includes(s)`). */
  predicate FieldMatches(field: Option<string>, s: string) {
    field.Some? && Includes(ToLower(field.value), s)
  }

  predicate Matches(p: Product, s: string) {
    FieldMatches(p.brand, s) || FieldMatches(p.model, s) || FieldMatches(p.category, s)
  }

  /** `products.filter(p => ...)`: the matching products, in their order. */
  function Filter(products: seq<Product>, s: string): (r: seq<Product>)
    ensures Subseq(r, products)
    ensures forall p :: p in r ==> Matches(p, s)
    ensures forall p :: p in products && Matches(p, s) ==> p in r
    ensures forall x :: multiset(r)[x] == if Matches(x, s) then multiset(products)[x] else 0
  {
    if products == [] then []
    else
      var rest := Filter(products[1..], s);
      assert products == [products[0]] + products[1..];
      if Matches(products[0], s) then
        assert ([products[0]] + rest)[1..] == rest;
        [products[0]] + rest
      else rest
  }

  /** `handleSearch`: a blank query shows every product; otherwise the query
      is lower-cased (but not trimmed) and matched against each field. */
  function Search(products: seq<Product>, text: string): (r: seq<Product>)
    ensures IsBlank(text) ==> r == products
    ensures !IsBlank(text) ==> r == Filter(products, ToLower(text))
  {
    if IsBlank(text) then products else Filter(products, ToLower(text))
  }

  /** The search result is an order-preserving selection of the products: a
      white-space-only query keeps all of them, any other query keeps exactly
      the products with a field containing it, ignoring ASCII case. */
  lemma SearchSpec(products: seq<Product>, text: string)
    ensures Subseq(Search(products, text), products)
    ensures AllSpace(text) ==> Search(products, text) == products
    ensures !AllSpace(text) ==>
      forall p :: p in Search(products, text) <==> p in products && Matches(p, ToLower(text))
  {
    BlankIffAllSpace(text);
    if AllSpace(text) {
      SubseqRefl(products);
    } else {
      var s := ToLower(text);
      var r := Filter(products, s);
      assert Search(products, text) == r;
      SubseqMembers(r, products);
      forall p ensures p in r <==> p in products && Matches(p, s) {
        if p in r {
          assert p in products && Matches(p, s);
        }
      }
    }
  }

  lemma {:induction false} ToLowerSpace(s: string)
    ensures AllSpace(ToLower(s)) <==> AllSpace(s)
  {
    forall i | 0 <= i < |s| ensures IsSpace(ToLower(s)[i]) <==> IsSpace(s[i]) {
      assert ToLower(s)[i] == LowerChar(s[i]);
    }
  }

  /** Upper- and lower-case spellings of a query give the same result. */
  lemma SearchCaseInsensitive(products: seq<Product>, text: string)
    ensures Search(products, ToLower(text)) == Search(products, text)
  {
    ToLowerSpace(text);
    BlankIffAllSpace(text);
    BlankIffAllSpace(ToLower(text));
    ToLowerIdempotent(text);
  }

  /** The query is not trimmed: a trailing space keeps a product whose brand
      is exactly the query's word out of the result. */
  lemma UntrimmedQuery()
    ensures Search([Product(Some("1"), Some("Apple"), None, None)], "apple ") == []
  {
    var p := Product(Some("1"), Some("Apple"), None, None);
    assert ToLower("apple ") == "apple ";
    assert !Matches(p, "apple ");
  }

  /** The table's paging: the number of pages, the rows of the current page,
      the row numbers shown, and whether the page strip is shown. */
  datatype Table = Table(totalPages: nat, rows: seq<Product>, numbers: seq<int>, showPager: bool)

  function TableFor(filtered: seq<Product>, currentPage: int): (t: Table)
    ensures t.totalPages == CeilDiv(|filtered|, PageSize)
    ensures t.rows == Pagination.PageRows(filtered, currentPage, PageSize) && |t.rows| <= PageSize
    ensures |t.numbers| == |t.rows|
    ensures forall i :: 0 <= i < |t.rows| ==> t.numbers[i] == (currentPage - 1) * PageSize + i + 1
    ensures t.showPager <==> t.totalPages > 1
  {
    var start := (currentPage - 1) * PageSize;
    var rows := Pagination.PageRows(filtered, currentPage, PageSize);
    Table(CeilDiv(|filtered|, PageSize), rows,
          seq(|rows|, i requires 0 <= i < |rows| => start + i + 1),
          CeilDiv(|filtered|, PageSize) > 1)
  }

  /** On a page from 1 on, each row's number is its 1-based position in the
      filtered list; the page strip appears only with more than six results. */
  lemma TableSpec(filtered: seq<Product>, currentPage: int)
    requires currentPage >= 1
    ensures var t := TableFor(filtered, currentPage);
      && (forall i :: 0 <= i < |t.rows| ==>
            1 <= t.numbers[i] <= |filtered| && t.rows[i] == filtered[t.numbers[i] - 1])
      && (t.showPager <==> |filtered| > PageSize)
  {
    Pagination.PageRowsSpec(filtered, currentPage, PageSize);
    var c := CeilDiv(|filtered|, PageSize);
    if |filtered| > PageSize {
      assert c > 1;
    } else {
      assert c <= 1;
    }
  }
}
