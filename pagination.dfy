/** The pagination bar under every admin list: the "showing X - Y of Z" label,
    the Prev / Next buttons and the page-size selector. */
module PaginationBar {
  import opened ListPaging

  /** The page-size choices offered by the selector. */
  const PageSizes: seq<int> := [10, 20, 50]

  /** `startItem = (currentPage - 1) * itemsPerPage + 1`: the 1-based position
      of the page's first row, which sits at offset 0 of page `page`. */
  function StartItem(page: int, n: int): (r: int)
    ensures page >= 1 && n > 0 ==> r >= 1 && (r - 1) / n == page - 1 && (r - 1) % n == 0
  {
    if page >= 1 && n > 0 then
      MulDiv(page - 1, n);
      (page - 1) * n + 1
    else
      (page - 1) * n + 1
  }

  lemma MulDiv(q: nat, n: int)
    requires n > 0
    ensures q * n >= 0 && (q * n) / n == q && (q * n) % n == 0
  {
    var d, m := (q * n) / n, (q * n) % n;
    assert d * n + m == q * n && 0 <= m < n;
    assert (q - d) * n == m;
    if q - d >= 1 {
      MulMonotone(1, q - d, n);
    } else if q - d <= -1 {
      MulMonotone(q - d, -1, n);
    }
  }

  /** `endItem = Math.min(currentPage * itemsPerPage, totalItems)`: the end of
      the page, cut off at the last row. */
  function EndItem(page: int, n: int, total: int): (r: int)
    ensures r <= total && r <= page * n
    ensures r == total || r == page * n
  {
    Min(page * n, total)
  }

  /** The start shown in the label: 0 for an empty list; on a page that
      exists, a row number no greater than the label's end. */
  function ShownStart(page: int, n: int, total: int): (r: int)
    ensures total == 0 ==> r == 0
    ensures total > 0 && n > 0 && 1 <= page <= TotalPages(total, n) ==> 1 <= r <= EndItem(page, n, total)
  {
    if total == 0 then 0
    else if total > 0 && n > 0 && 1 <= page <= TotalPages(total, n) then
      LabelBounds(page, n, total);
      StartItem(page, n)
    else
      StartItem(page, n)
  }

  lemma LabelBounds(page: int, n: int, total: nat)
    requires total > 0 && n > 0 && 1 <= page <= TotalPages(total, n)
    ensures 1 <= StartItem(page, n) <= EndItem(page, n, total)
  {
    MulMonotone(page - 1, TotalPages(total, n) - 1, n);
    assert page * n == (page - 1) * n + n;
  }

  /** Prev is disabled on page 1; on a page that exists it is enabled exactly
      when the page it asks for exists. */
  predicate PrevDisabled(page: int)
    ensures page >= 1 ==> (!PrevDisabled(page) <==> PrevTarget(page) >= 1)
  {
    page == 1
  }

  /** Next is disabled on the last page and when there is no page at all; on
      a page that exists it is enabled exactly when the page it asks for
      exists. */
  predicate NextDisabled(page: int, totalPages: int)
    ensures 1 <= page <= totalPages ==> (!NextDisabled(page, totalPages) <==> NextTarget(page) <= totalPages)
  {
    page == totalPages || totalPages == 0
  }

  /** The page Prev asks for: the one just before, never below 1 from a later page. */
  function PrevTarget(page: int): (r: int)
    ensures r < page && (page > 1 ==> r >= 1)
  {
    page - 1
  }

  /** The page Next asks for: the one just after, so that Prev from there
      comes back. */
  function NextTarget(page: int): (r: int)
    ensures r > page && PrevTarget(r) == page
  {
    page + 1
  }

  /** Every offered page size is positive, which is what the page count needs. */
  lemma PageSizesArePositive()
    ensures |PageSizes| == 3
    ensures forall k :: 0 <= k < |PageSizes| ==> PageSizes[k] > 0
  {
  }

  /** On a page that exists, the label's numbers are the 1-based positions of the
      first and last rows actually shown: start <= end <= total, and the label
      spans exactly the page's rows, at most `n` of them. */
  lemma RangeLabelDescribesPage<T>(items: seq<T>, page: int, n: int)
    requires n > 0 && |items| > 0
    requires 1 <= page <= TotalPages(|items|, n)
    ensures var s, e, rows := StartItem(page, n), EndItem(page, n, |items|), PageSlice(items, page, n);
            && ShownStart(page, n, |items|) == s
            && 1 <= s <= e <= |items|
            && e - s + 1 == |rows| <= n
            && rows[0] == items[s - 1]
            && rows[|rows| - 1] == items[e - 1]
  {
    var t := TotalPages(|items|, n);
    MulMonotone(page - 1, t - 1, n);
    assert page * n == (page - 1) * n + n;
    PageWindow(items, page, n);
  }

  /** An empty list reads "0 - 0 of 0" and both buttons of page 1 are disabled. */
  lemma EmptyListLabel(n: int)
    requires n > 0
    ensures ShownStart(1, n, 0) == 0 && EndItem(1, n, 0) == 0
    ensures PrevDisabled(1) && NextDisabled(1, TotalPages(0, n))
  {
  }

  /** From a page that exists, an enabled button always leads to a page that
      exists, and Next is disabled exactly on the last page. */
  lemma NavigationStaysInRange(page: int, totalPages: int)
    requires 1 <= page <= totalPages
    ensures !PrevDisabled(page) ==> 1 <= PrevTarget(page) <= totalPages
    ensures !NextDisabled(page, totalPages) ==> 1 <= NextTarget(page) <= totalPages
    ensures NextDisabled(page, totalPages) <==> page == totalPages
  {
  }

  /** Past the last page (possible once rows are deleted, because nothing clamps
      the current page) Next stays enabled and the label reads start > end. */
  lemma NextEnabledPastLastPage(page: int, n: int, total: nat)
    requires n > 0 && page > TotalPages(total, n) && total > 0
    ensures !NextDisabled(page, TotalPages(total, n))
    ensures ShownStart(page, n, total) > EndItem(page, n, total)
  {
    var t := TotalPages(total, n);
    MulMonotone(t, page - 1, n);
  }

  /** Next disabled on and after the last page. */
  predicate NextDisabledClamped(page: int, totalPages: int)
  {
    page >= totalPages
  }

  /** With the clamped condition an enabled Next never leaves the counted pages,
      from any page at all. */
  lemma ClampedNextStaysInRange(page: int, totalPages: int)
    requires page >= 1
    ensures !NextDisabledClamped(page, totalPages) ==> 1 <= NextTarget(page) <= totalPages
    ensures 1 <= page <= totalPages ==> (NextDisabledClamped(page, totalPages) <==> NextDisabled(page, totalPages))
  {
  }
}
