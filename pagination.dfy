/** The page-number strip under the catalogue: at most five consecutive page
    numbers around the current page, with Prev and Next buttons. */
module Pagination {
  import opened Common

  /** The consecutive integers `lo, lo + 1, ..., hi` (empty when `lo > hi`). */
  function Range(lo: int, hi: int): (r: seq<int>)
    ensures |r| == if lo <= hi then hi - lo + 1 else 0
    ensures forall k :: 0 <= k < |r| ==> r[k] == lo + k
  {
    if lo > hi then [] else seq(hi - lo + 1, k requires 0 <= k < hi - lo + 1 => lo + k)
  }

  function Max(a: int, b: int): int { if a >= b then a else b }
  function Min(a: int, b: int): int { if a <= b then a else b }

  /** The visible page numbers: from `max(1, cur - 2)` to `min(total, cur + 2)`. */
  function Window(cur: int, total: int): seq<int> {
    Range(Max(1, cur - 2), Min(total, cur + 2))
  }

  /** The loop that pushes the visible page numbers. */
  method VisiblePages(currentPage: int, totalPages: int) returns (pageNumbers: seq<int>)
    ensures pageNumbers == Window(currentPage, totalPages)
  {
    var start := Max(1, currentPage - 2);
    var end := Min(totalPages, currentPage + 2);
    pageNumbers := [];
    var i := start;
    while i <= end
      invariant start <= i && (if start <= end then i <= end + 1 else i == start)
      invariant pageNumbers == Range(start, i - 1)
      decreases end - i
    {
      pageNumbers := pageNumbers + [i];
      i := i + 1;
    }
  }

  /** The window is ascending, holds at most five pages, and, for a current
      page within `1..total`, contains it and stays within `1..total`. */
  lemma WindowShape(cur: int, total: int)
    ensures |Window(cur, total)| <= 5
    ensures forall k :: 0 < k < |Window(cur, total)| ==> Window(cur, total)[k] == Window(cur, total)[k - 1] + 1
    ensures forall p :: p in Window(cur, total) ==> 1 <= p <= total && cur - 2 <= p <= cur + 2
    ensures 1 <= cur <= total ==> cur in Window(cur, total)
  {
    var w := Window(cur, total);
    if 1 <= cur <= total {
      assert w[cur - Max(1, cur - 2)] == cur;
    }
  }

  /** One numbered button, and whether it is the active one. */
  datatype PageItem = PageItem(num: int, active: bool)

  datatype View = View(prevDisabled: bool, nextDisabled: bool, items: seq<PageItem>,
                       prevTarget: int, nextTarget: int)

  /** What the component renders: nothing when there are no pages; otherwise
      Prev (disabled on the first page), the window, and Next (disabled on the
      last page). The buttons request `cur - 1` and `cur + 1` whatever their
      disabled marking. */
  function Render(cur: int, total: int): (v: Option<View>)
    ensures v.None? <==> total == 0
    ensures v.Some? ==>
      (v.value.prevDisabled <==> cur == 1) && (v.value.nextDisabled <==> cur == total)
      && v.value.prevTarget == cur - 1 && v.value.nextTarget == cur + 1
      && |v.value.items| == |Window(cur, total)|
      && forall k :: 0 <= k < |v.value.items| ==>
           v.value.items[k].num == Window(cur, total)[k]
           && (v.value.items[k].active <==> Window(cur, total)[k] == cur)
  {
    if total == 0 then None
    else
      var w := Window(cur, total);
      Some(View(cur == 1, cur == total,
                seq(|w|, k requires 0 <= k < |w| => PageItem(w[k], w[k] == cur)),
                cur - 1, cur + 1))
  }

  /** For a current page within `1..total` exactly one item is active, and it
      is the current page; outside that range no item is active. */
  lemma ExactlyOneActive(cur: int, total: int)
    requires total != 0
    ensures var items := Render(cur, total).value.items;
      (1 <= cur <= total ==>
         exists k :: 0 <= k < |items| && items[k].active && items[k].num == cur
                     && forall j :: 0 <= j < |items| && j != k ==> !items[j].active)
      && (!(1 <= cur <= total) ==> forall j :: 0 <= j < |items| ==> !items[j].active)
  {
    WindowShape(cur, total);
    var items := Render(cur, total).value.items;
    var w := Window(cur, total);
    if 1 <= cur <= total {
      var k := cur - Max(1, cur - 2);
      assert items[k].active && items[k].num == cur;
      forall j | 0 <= j < |items| && j != k ensures !items[j].active {
        assert w[j] == Max(1, cur - 2) + j;
      }
    }
  }

  /** The rows of page `page` (1-based) at `size` rows per page:
      `rows.slice((page - 1) * size, (page - 1) * size + size)`. */
  function PageRows<T>(rows: seq<T>, page: int, size: nat): (r: seq<T>)
    requires size > 0
    ensures |r| <= size
  {
    JsSlice(rows, (page - 1) * size, (page - 1) * size + size)
  }

  /** A page from 1 on holds the next at most `size` rows in order; the pages
      up to `ceil(|rows| / size)` are non-empty and the later ones are empty. */
  lemma PageRowsSpec<T>(rows: seq<T>, page: int, size: nat)
    requires size > 0 && page >= 1
    ensures var r := PageRows(rows, page, size);
      && (forall i :: 0 <= i < |r| ==> (page - 1) * size + i < |rows| && r[i] == rows[(page - 1) * size + i])
      && (page <= CeilDiv(|rows|, size) <==> r != [])
  {
    var start := (page - 1) * size;
    PageStart(page, size, |rows|);
    SliceFrom(rows, start, size);
  }

  /** `slice(start, start + size)` from a non-negative start. */
  lemma SliceFrom<T>(rows: seq<T>, start: int, size: nat)
    requires start >= 0 && size > 0
    ensures var r := JsSlice(rows, start, start + size);
      && (forall i :: 0 <= i < |r| ==> start + i < |rows| && r[i] == rows[start + i])
      && (start < |rows| <==> r != [])
  {
  }

  /** Page `page` starts inside the list exactly when it is at most
      `ceil(n / size)`. */
  lemma PageStart(page: int, size: nat, n: nat)
    requires size > 0 && page >= 1
    ensures (page - 1) * size >= 0
    ensures page <= CeilDiv(n, size) <==> (page - 1) * size < n
  {
    var c := CeilDiv(n, size);
    MulMono(0, page - 1, size);
    if page <= c {
      MulMono(page - 1, c - 1, size);
    } else {
      MulMono(c, page - 1, size);
    }
  }

  lemma MulMono(a: int, b: int, size: nat)
    requires a <= b
    ensures a * size <= b * size
  {
    assert (b - a) * size >= 0;
    assert b * size - a * size == (b - a) * size;
  }

  /** Every row is shown on exactly the page `j / size + 1`, at position
      `j % size`, so the number shown beside it, `start + i + 1`, is its
      1-based position in the list. */
  lemma RowOnItsPage<T>(rows: seq<T>, size: nat, j: nat)
    requires size > 0 && j < |rows|
    ensures var page := j / size + 1;
      && j % size < |PageRows(rows, page, size)|
      && PageRows(rows, page, size)[j % size] == rows[j]
      && (page - 1) * size + j % size + 1 == j + 1
  {
    var page := j / size + 1;
    assert (page - 1) * size + j % size == j;
  }
}
