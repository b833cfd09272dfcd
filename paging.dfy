/** Client-side pagination shared by the admin list screens: JavaScript's
    `Array.prototype.slice`, the page window `slice((p - 1) * n, p * n)`, the page
    count `Math.ceil(total / n)`, and the filter state whose changes send the list
    back to page 1. */
module ListPaging {

  function Min(a: int, b: int): int { if a <= b then a else b }

  /** How `slice` reads one of its indices: negative counts from the end, then clamp to [0, len]. */
  function RelativeIndex(i: int, len: nat): (r: nat)
    ensures r <= len
    ensures 0 <= i ==> r == Min(i, len)
  {
    if i < 0 then (if len + i < 0 then 0 else len + i) else if i > len then len else i
  }

  /** `s.slice(start, end)`. */
  function JsSlice<T>(s: seq<T>, start: int, end: int): (r: seq<T>)
    ensures |r| <= |s|
    ensures 0 <= start <= end ==> |r| == Min(end, |s|) - Min(start, |s|)
    ensures 0 <= end <= start ==> r == []
    ensures 0 <= start ==> forall k :: 0 <= k < |r| ==> start + k < |s| && r[k] == s[start + k]
    ensures start < 0 && -start <= |s| && end >= |s| ==> r == s[|s| + start..]
  {
    var a := RelativeIndex(start, |s|);
    var b := RelativeIndex(end, |s|);
    if a < b then s[a..b] else []
  }

  /** `items.slice((page - 1) * n, page * n)`. */
  function PageSlice<T>(items: seq<T>, page: int, n: int): (r: seq<T>)
    ensures page >= 1 && n > 0 ==> |r| <= n
    ensures page >= 1 && n > 0 ==> forall k :: 0 <= k < |r| ==> (page - 1) * n + k < |items| && r[k] == items[(page - 1) * n + k]
  {
    if page >= 1 && n > 0 then
      PageStart(page, n);
      JsSlice(items, (page - 1) * n, page * n)
    else
      JsSlice(items, (page - 1) * n, page * n)
  }

  /** `Math.ceil(total / n)`. */
  function TotalPages(total: nat, n: int): (r: nat)
    requires n > 0
    ensures r == 0 <==> total == 0
    ensures r > 0 ==> (r - 1) * n < total <= r * n
  {
    var q := (total + n - 1) / n;
    var m := (total + n - 1) % n;
    assert total + n - 1 == q * n + m && 0 <= m < n;
    assert (q - 1) * n == q * n - n;
    q
  }

  /** Page `page` (counted from 1) holds exactly the items at indices
      [(page - 1) * n, page * n) that exist, so at most `n` of them. */
  lemma PageWindow<T>(items: seq<T>, page: int, n: int)
    requires page >= 1 && n > 0
    ensures var start := (page - 1) * n;
            var r := PageSlice(items, page, n);
            && |r| == (if start >= |items| then 0 else Min(n, |items| - start))
            && (forall k :: 0 <= k < |r| ==> r[k] == items[start + k])
  {
    PageStart(page, n);
    SliceWindow(items, (page - 1) * n, n);
  }

  lemma PageStart(page: int, n: int)
    requires page >= 1 && n > 0
    ensures (page - 1) * n >= 0 && page * n == (page - 1) * n + n
  {
    assert page - 1 >= 0;
  }

  /** `slice(start, start + n)` from a non-negative start. */
  lemma SliceWindow<T>(items: seq<T>, start: int, n: int)
    requires start >= 0 && n > 0
    ensures var r := JsSlice(items, start, start + n);
            && |r| == (if start >= |items| then 0 else Min(n, |items| - start))
            && (forall k :: 0 <= k < |r| ==> r[k] == items[start + k])
  {
  }

  lemma MulMonotone(a: int, b: int, n: int)
    requires a <= b && n >= 0
    ensures a * n <= b * n
  {
    assert b * n - a * n == (b - a) * n;
  }

  /** A page whose first index lies inside the list is one of the counted pages. */
  lemma PageWithinCount(total: nat, n: int, q: nat)
    requires n > 0 && q * n < total
    ensures q + 1 <= TotalPages(total, n)
  {
    var t := TotalPages(total, n);
    if q >= t {
      MulMonotone(t, q, n);
    }
  }

  /** Every item appears on exactly the page its index says: item `i` is entry
      `i % n` of page `i / n + 1`, and that page exists. */
  lemma ItemOnItsPage<T>(items: seq<T>, n: int, i: int)
    requires n > 0 && 0 <= i < |items|
    ensures var p := i / n + 1;
            && 1 <= p <= TotalPages(|items|, n)
            && i % n < |PageSlice(items, p, n)|
            && PageSlice(items, p, n)[i % n] == items[i]
  {
    DivMod(i, n);
    ItemAt(items, n, i / n, i % n);
  }

  lemma DivMod(i: nat, n: int)
    requires n > 0
    ensures i / n >= 0 && 0 <= i % n < n && (i / n) * n + i % n == i
  {
  }

  lemma ItemAt<T>(items: seq<T>, n: int, q: nat, r: int)
    requires n > 0 && 0 <= r < n && q * n + r < |items|
    ensures 1 <= q + 1 <= TotalPages(|items|, n)
    ensures r < |PageSlice(items, q + 1, n)| && PageSlice(items, q + 1, n)[r] == items[q * n + r]
  {
    PageWithinCount(|items|, n, q);
    PageEntry(items, q, n, r);
  }

  lemma PageEntry<T>(items: seq<T>, q: nat, n: int, r: int)
    requires n > 0 && 0 <= r < n && q * n + r < |items|
    ensures r < |PageSlice(items, q + 1, n)| && PageSlice(items, q + 1, n)[r] == items[q * n + r]
  {
    assert (q + 1 - 1) * n == q * n;
    PageWindow(items, q + 1, n);
  }

  /** Pages after the last one are empty. */
  lemma PagesAfterLastAreEmpty<T>(items: seq<T>, page: int, n: int)
    requires n > 0 && page > TotalPages(|items|, n)
    ensures PageSlice(items, page, n) == []
  {
    var t := TotalPages(|items|, n);
    MulMonotone(t, page - 1, n);
    PageWindow(items, page, n);
  }

  /** The search / event / page-size state of the donation and disbursement
      lists. A React effect resets `currentPage` to 1 whenever one of the three
      filters takes a new value. */
  class ListFilters {
    var search: string
    var selectedEvent: string
    var itemsPerPage: int
    var currentPage: int

    constructor ()
      ensures search == "" && selectedEvent == "all" && itemsPerPage == 10 && currentPage == 1
    {
      search := "";
      selectedEvent := "all";
      itemsPerPage := 10;
      currentPage := 1;
    }

    method SetSearch(s: string)
      modifies this
      ensures search == s
      ensures selectedEvent == old(selectedEvent) && itemsPerPage == old(itemsPerPage)
      ensures currentPage == if s != old(search) then 1 else old(currentPage)
    {
      if s != search {
        currentPage := 1;
      }
      search := s;
    }

    method SetSelectedEvent(e: string)
      modifies this
      ensures selectedEvent == e
      ensures search == old(search) && itemsPerPage == old(itemsPerPage)
      ensures currentPage == if e != old(selectedEvent) then 1 else old(currentPage)
    {
      if e != selectedEvent {
        currentPage := 1;
      }
      selectedEvent := e;
    }

    method SetItemsPerPage(n: int)
      modifies this
      ensures itemsPerPage == n
      ensures search == old(search) && selectedEvent == old(selectedEvent)
      ensures currentPage == if n != old(itemsPerPage) then 1 else old(currentPage)
    {
      if n != itemsPerPage {
        currentPage := 1;
      }
      itemsPerPage := n;
    }

    /** The pagination bar's `onPageChange`: only the page moves. */
    method SetCurrentPage(p: int)
      modifies this
      ensures currentPage == p
      ensures search == old(search) && selectedEvent == old(selectedEvent) && itemsPerPage == old(itemsPerPage)
    {
      currentPage := p;
    }
  }
}
