/**
 * The page-number strip of the pagination control
 * (frontend/src/components/common/ModernPagination.tsx): which page
 * buttons and ellipses are shown for a current page, a page count and a
 * maximum number of visible pages, and which navigation buttons are off.
 */
module Pagination {
  datatype PageEntry = Page(n: int) | Ellipsis

  const DefaultMaxVisible := 7

  function Max(a: int, b: int): int { if a >= b then a else b }
  function Min(a: int, b: int): int { if a <= b then a else b }

  /** The page buttons `a, a+1, ..., b` (none when `a > b`). */
  function Range(a: int, b: int): (r: seq<PageEntry>)
    ensures |r| == if a > b then 0 else b - a + 1
    ensures forall i :: 0 <= i < |r| ==> r[i] == Page(a + i)
    decreases b - a + 1
  {
    if a > b then [] else [Page(a)] + Range(a + 1, b)
  }

  /** Where the middle run starts: `Math.max(2, currentPage - Math.floor(maxVisiblePages / 2))`. */
  function StartPage(current: int, maxVisible: int): int
  {
    Max(2, current - maxVisible / 2)
  }

  /** Where the middle run ends: `Math.min(totalPages - 1, startPage + maxVisiblePages - 3)`. */
  function EndPage(current: int, total: int, maxVisible: int): int
  {
    Min(total - 1, StartPage(current, maxVisible) + maxVisible - 3)
  }

  /**
   * getVisiblePages, stated as one expression: every page when they fit;
   * otherwise the first page, an ellipsis if there is a gap, the middle
   * run, an ellipsis if there is a gap, and the last page.
   * (`Math.floor(m / 2)` is Dafny's `m / 2`: division by a positive number.)
   */
  function VisiblePages(current: int, total: int, maxVisible: int): (r: seq<PageEntry>)
    ensures total >= 1 ==> |r| >= 1 && r[0] == Page(1)
    ensures total >= 2 ==> r[|r| - 1] == Page(total)
  {
    if total <= maxVisible then Range(1, total)
    else
      var start := StartPage(current, maxVisible);
      var end := EndPage(current, total, maxVisible);
      [Page(1)]
      + (if start > 2 then [Ellipsis] else [])
      + Range(start, end)
      + (if end < total - 1 then [Ellipsis] else [])
      + (if total > 1 then [Page(total)] else [])
  }

  lemma {:induction false} RangeSnoc(a: int, b: int)
    requires a <= b + 1
    ensures Range(a, b + 1) == Range(a, b) + [Page(b + 1)]
  {
  }

  /** One `for` loop of getVisiblePages: pushes the buttons `a..b` onto `pages`. */
  method PushRange(pages: seq<PageEntry>, a: int, b: int) returns (r: seq<PageEntry>)
    ensures r == pages + Range(a, b)
  {
    r := pages;
    var i := a;
    while i <= b
      invariant a <= i <= Max(a, b + 1)
      invariant r == pages + Range(a, i - 1)
    {
      RangeSnoc(a, i - 1);
      r := r + [Page(i)];
      i := i + 1;
    }
  }

  /** getVisiblePages as the component runs it: pushes entries onto a list. */
  method GetVisiblePages(current: int, total: int, maxVisible: int) returns (pages: seq<PageEntry>)
    ensures pages == VisiblePages(current, total, maxVisible)
  {
    if total <= maxVisible {
      pages := PushRange([], 1, total);
      assert [] + Range(1, total) == Range(1, total);
    } else {
      pages := [Page(1)];
      var startPage := Max(2, current - maxVisible / 2);
      var endPage := Min(total - 1, startPage + maxVisible - 3);
      ghost var e1: seq<PageEntry> := if startPage > 2 then [Ellipsis] else [];
      if startPage > 2 {
        pages := pages + [Ellipsis];
      }
      assert pages == [Page(1)] + e1;
      pages := PushRange(pages, startPage, endPage);
      ghost var e2: seq<PageEntry> := if endPage < total - 1 then [Ellipsis] else [];
      if endPage < total - 1 {
        pages := pages + [Ellipsis];
      }
      assert pages == [Page(1)] + e1 + Range(startPage, endPage) + e2;
      ghost var last: seq<PageEntry> := if total > 1 then [Page(total)] else [];
      if total > 1 {
        pages := pages + [Page(total)];
      }
      assert pages == [Page(1)] + e1 + Range(startPage, endPage) + e2 + last;
    }
  }

  /** The number of page buttons in a strip. */
  function PageCount(pages: seq<PageEntry>): nat
  {
    if |pages| == 0 then 0 else (if pages[0].Page? then 1 else 0) + PageCount(pages[1..])
  }

  lemma {:induction false} PageCountAppend(a: seq<PageEntry>, b: seq<PageEntry>)
    ensures PageCount(a + b) == PageCount(a) + PageCount(b)
  {
    if |a| == 0 {
      assert a + b == b;
    } else {
      assert (a + b)[1..] == a[1..] + b;
      PageCountAppend(a[1..], b);
    }
  }

  lemma {:induction false} PageCountRange(a: int, b: int)
    ensures PageCount(Range(a, b)) == |Range(a, b)|
    decreases b - a + 1
  {
    if a <= b {
      assert Range(a, b)[1..] == Range(a + 1, b);
      PageCountRange(a + 1, b);
    }
  }

  /** At most `maxVisible` page buttons are shown (for a limit of at least 2). */
  lemma {:induction false} PageButtonsBounded(current: int, total: int, maxVisible: int)
    requires maxVisible >= 2
    ensures PageCount(VisiblePages(current, total, maxVisible)) <= maxVisible
  {
    if total <= maxVisible {
      PageCountRange(1, total);
    } else {
      var start := StartPage(current, maxVisible);
      var end := EndPage(current, total, maxVisible);
      var e1: seq<PageEntry> := if start > 2 then [Ellipsis] else [];
      var e2: seq<PageEntry> := if end < total - 1 then [Ellipsis] else [];
      var last: seq<PageEntry> := if total > 1 then [Page(total)] else [];
      PageCountAppend([Page(1)] + e1 + Range(start, end) + e2, last);
      PageCountAppend([Page(1)] + e1 + Range(start, end), e2);
      PageCountAppend([Page(1)] + e1, Range(start, end));
      PageCountAppend([Page(1)], e1);
      PageCountRange(start, end);
    }
  }

  /** Page numbers in the strip grow strictly from left to right and lie in `1..totalPages`. */
  predicate Ascending(pages: seq<PageEntry>, total: int)
  {
    (forall i :: 0 <= i < |pages| && pages[i].Page? ==> 1 <= pages[i].n <= total) &&
    (forall i, j :: 0 <= i < j < |pages| && pages[i].Page? && pages[j].Page? ==> pages[i].n < pages[j].n)
  }

  /** The page numbers of a strip lie in `lo..hi` and grow strictly from left to right. */
  predicate Within(pages: seq<PageEntry>, lo: int, hi: int)
  {
    (forall i :: 0 <= i < |pages| && pages[i].Page? ==> lo <= pages[i].n <= hi) &&
    (forall i, j :: 0 <= i < j < |pages| && pages[i].Page? && pages[j].Page? ==> pages[i].n < pages[j].n)
  }

  lemma RangeWithin(a: int, b: int)
    ensures Within(Range(a, b), a, b)
  {
  }

  /** Two strips side by side, the left one's pages all below the right one's, form one strip. */
  lemma AppendWithin(x: seq<PageEntry>, y: seq<PageEntry>, lo: int, m: int, hi: int)
    requires lo <= m + 1 && m <= hi && Within(x, lo, m) && Within(y, m + 1, hi)
    ensures Within(x + y, lo, hi)
  {
    var z := x + y;
    forall i, j | 0 <= i < j < |z| && z[i].Page? && z[j].Page?
      ensures z[i].n < z[j].n
    {
      if j < |x| {
        assert z[i] == x[i] && z[j] == x[j];
      } else if i < |x| {
        assert z[i] == x[i] && z[j] == y[j - |x|];
      } else {
        assert z[i] == y[i - |x|] && z[j] == y[j - |x|];
      }
    }
    forall i | 0 <= i < |z| && z[i].Page?
      ensures lo <= z[i].n <= hi
    {
      if i < |x| {
        assert z[i] == x[i];
      } else {
        assert z[i] == y[i - |x|];
      }
    }
  }

  /** The strip's pieces joined in order: the first page, the middle run, the last page. */
  lemma PiecesWithin(head: seq<PageEntry>, mid: seq<PageEntry>, e2: seq<PageEntry>, last: seq<PageEntry>, total: int)
    requires total >= 2
    requires Within(head, 1, 1) && Within(mid, 2, total - 1) && Within(e2, total, total - 1) && Within(last, total, total)
    ensures Within(head + mid + e2 + last, 1, total)
  {
    AppendWithin(head, mid, 1, 1, total - 1);
    AppendWithin(head + mid, e2, 1, total - 1, total - 1);
    AppendWithin(head + mid + e2, last, 1, total - 1, total);
  }

  lemma AscendingStrip(current: int, total: int, maxVisible: int)
    requires total >= 1
    ensures Ascending(VisiblePages(current, total, maxVisible), total)
  {
    var pages := VisiblePages(current, total, maxVisible);
    if total <= maxVisible {
      RangeWithin(1, total);
    } else {
      var start := StartPage(current, maxVisible);
      var end := EndPage(current, total, maxVisible);
      var mid := Range(start, end);
      var e1: seq<PageEntry> := if start > 2 then [Ellipsis] else [];
      var e2: seq<PageEntry> := if end < total - 1 then [Ellipsis] else [];
      var last: seq<PageEntry> := if total > 1 then [Page(total)] else [];
      var head := [Page(1)] + e1;
      assert pages == head + mid + e2 + last;
      if total == 1 {
        assert pages == [Page(1)] + e1 + e2;
      } else {
        RangeWithin(start, end);
        assert Within(mid, 2, total - 1);
        PiecesWithin(head, mid, e2, last, total);
      }
    }
  }

  /** The current page has a button whenever at least five are allowed (the default is seven). */
  lemma CurrentPageVisible(current: int, total: int, maxVisible: int)
    requires maxVisible >= 5 && 1 <= current <= total
    ensures Page(current) in VisiblePages(current, total, maxVisible)
  {
    var pages := VisiblePages(current, total, maxVisible);
    if total <= maxVisible {
      assert Range(1, total)[current - 1] == Page(current);
    } else if current == 1 {
      assert pages[0] == Page(1);
    } else if current == total {
      assert pages[|pages| - 1] == Page(total);
    } else {
      var start := StartPage(current, maxVisible);
      var end := EndPage(current, total, maxVisible);
      assert start <= current <= end;
      var mid := Range(start, end);
      assert mid[current - start] == Page(current);
      var e1: seq<PageEntry> := if start > 2 then [Ellipsis] else [];
      var e2: seq<PageEntry> := if end < total - 1 then [Ellipsis] else [];
      var last: seq<PageEntry> := if total > 1 then [Page(total)] else [];
      assert pages == ([Page(1)] + e1) + mid + (e2 + last);
      assert pages[1 + |e1| + current - start] == Page(current);
    }
  }

  /** With only four visible pages the current page can drop out of the strip. */
  lemma CurrentPageHiddenWithFour()
    ensures VisiblePages(5, 10, 4) == [Page(1), Ellipsis, Page(3), Page(4), Ellipsis, Page(10)]
    ensures Page(5) !in VisiblePages(5, 10, 4)
  {
    assert Range(3, 4) == [Page(3), Page(4)];
  }

  /** The control renders nothing for a single page (`if (totalPages <= 1) return null`). */
  predicate Rendered(total: int)
  {
    total > 1
  }

  /** First and previous are off on the first page; next and last on the last page. */
  predicate BackDisabled(current: int)
  {
    current == 1
  }

  predicate ForwardDisabled(current: int, total: int)
  {
    current == total
  }

  /** An enabled navigation button leads to a page in range. */
  lemma NavigationStaysInRange(current: int, total: int)
    requires 1 <= current <= total
    ensures !BackDisabled(current) ==> 1 <= current - 1 <= total
    ensures !ForwardDisabled(current, total) ==> 1 <= current + 1 <= total
  {
  }
}
