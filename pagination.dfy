/** The window of page numbers a pager shows (lib/pagination.ts): every page
    when there are few, otherwise the first and last page, the current page
    with `siblingCount` neighbours on each side, and "..." markers for the
    pages left out. */
module Pagination {
  import opened JsPrelude

  /** One entry of the window: a page number or the "..." marker. */
  datatype PageItem = Page(n: int) | Dots

  /** `Array.from({length: len}, (_, i) => first + i)`: len consecutive page
      numbers starting at first; a negative length gives no entries. */
  function Run(first: int, len: int): (r: seq<PageItem>)
    ensures |r| == Max(len, 0)
    ensures forall i :: 0 <= i < |r| ==> r[i] == Page(first + i)
  {
    if len <= 0 then [] else Run(first, len - 1) + [Page(first + len - 1)]
  }

  /** getPaginationRange(current, total, siblingCount) */
  function PaginationRange(current: int, total: int, siblingCount: nat): (r: seq<PageItem>)
    ensures total > 2 * siblingCount + 5 ==> |r| == 2 * siblingCount + 5
  {
    var totalPageNumbers := siblingCount * 2 + 5;
    if totalPageNumbers >= total then
      Run(1, total)
    else
      var leftSibling := Max(current - siblingCount, 1);
      var rightSibling := Min(current + siblingCount, total);
      var showLeftDots := leftSibling > 2;
      var showRightDots := rightSibling < total - 2;
      var itemCount := 3 + 2 * siblingCount;
      if !showLeftDots && showRightDots then
        Run(1, itemCount) + [Dots, Page(total)]
      else if showLeftDots && !showRightDots then
        [Page(1), Dots] + Run(total - itemCount + 1, itemCount)
      else
        [Page(1), Dots] + Run(leftSibling, rightSibling - leftSibling + 1) + [Dots, Page(total)]
  }

  /** Page numbers appear in strictly increasing order. */
  predicate Increasing(r: seq<PageItem>)
  {
    forall i, j :: 0 <= i < j < |r| && r[i].Page? && r[j].Page? ==> r[i].n < r[j].n
  }

  /** Every "..." sits between two page numbers that are more than one apart,
      so it stands for at least one page that is not shown. */
  predicate DotsHideSomePage(r: seq<PageItem>)
  {
    forall i :: 0 <= i < |r| && r[i].Dots? ==>
      0 < i < |r| - 1 && r[i - 1].Page? && r[i + 1].Page? && r[i + 1].n - r[i - 1].n > 1
  }

  /** Every page number shown lies between 1 and total. */
  predicate PagesWithin(r: seq<PageItem>, total: int)
  {
    forall i :: 0 <= i < |r| && r[i].Page? ==> 1 <= r[i].n <= total
  }

  /** The fast path: when the pages fit, the window is exactly 1..total
      (nothing when total is 0) and has no "...". */
  lemma SmallTotalShowsEveryPage(current: int, total: int, siblingCount: nat)
    requires total <= 2 * siblingCount + 5
    ensures var r := PaginationRange(current, total, siblingCount);
      |r| == Max(total, 0) && (forall i :: 0 <= i < |r| ==> r[i] == Page(i + 1))
  {
  }

  /** The "..." markers appear exactly as the sibling bounds decide: on the
      left iff the left bound is past page 2, on the right iff the right
      bound is before total - 2; and at least one of them appears. */
  lemma {:induction false} DotsFollowSiblingBounds(current: int, total: int, siblingCount: nat)
    requires total > 2 * siblingCount + 5
    ensures var r := PaginationRange(current, total, siblingCount);
      var left := Max(current - siblingCount, 1);
      var right := Min(current + siblingCount, total);
      (r[1] == Dots <==> left > 2) && (r[|r| - 2] == Dots <==> right < total - 2) &&
      (left > 2 || right < total - 2)
  {
    var s := siblingCount;
    var r := PaginationRange(current, total, s);
    var left := Max(current - s, 1);
    var right := Min(current + s, total);
    var k := 3 + 2 * s;
    if left <= 2 {
      assert right < total - 2;
      assert r == Run(1, k) + [Dots, Page(total)];
      assert r[1] == Page(2);
    } else if right >= total - 2 {
      assert r == [Page(1), Dots] + Run(total - k + 1, k);
      assert r[|r| - 2] == Page(total - 1);
    }
  }

  /** The shape every large window has: 2*siblingCount+5 entries, page 1
      first and page total last, page numbers strictly increasing and within
      1..total, every "..." standing for at least one hidden page, and the
      current page shown when it is a valid page. */
  predicate LargeWindow(r: seq<PageItem>, current: int, total: int, siblingCount: nat)
  {
    && |r| == 2 * siblingCount + 5
    && r[0] == Page(1) && r[|r| - 1] == Page(total)
    && Increasing(r) && DotsHideSomePage(r) && PagesWithin(r, total)
    && (1 <= current <= total ==> Page(current) in r)
  }

  /** Current page near the start: pages 1..3+2s, "...", total. */
  lemma {:induction false} RightDotsWindow(current: int, total: int, s: nat)
    requires total > 2 * s + 5 && Max(current - s, 1) <= 2
    ensures LargeWindow(PaginationRange(current, total, s), current, total, s)
  {
    var r := PaginationRange(current, total, s);
    var k := 3 + 2 * s;
    assert r == Run(1, k) + [Dots, Page(total)];
    assert forall i :: 0 <= i < k ==> r[i] == Page(1 + i);
    assert r[k] == Dots && r[k + 1] == Page(total);
    if 1 <= current <= total {
      assert r[current - 1] == Page(current);
    }
  }

  /** Current page near the end: 1, "...", pages total-2-2s..total. */
  lemma {:induction false} LeftDotsWindow(current: int, total: int, s: nat)
    requires total > 2 * s + 5 && Max(current - s, 1) > 2 && Min(current + s, total) >= total - 2
    ensures LargeWindow(PaginationRange(current, total, s), current, total, s)
  {
    var r := PaginationRange(current, total, s);
    var k := 3 + 2 * s;
    var first := total - k + 1;
    assert r == [Page(1), Dots] + Run(first, k);
    assert forall i :: 2 <= i < k + 2 ==> r[i] == Page(first + i - 2);
    if 1 <= current <= total {
      assert r[current - first + 2] == Page(current);
    }
  }

  /** Current page in the middle: 1, "...", current-s..current+s, "...", total. */
  lemma {:induction false} BothDotsWindow(current: int, total: int, s: nat)
    requires total > 2 * s + 5 && Max(current - s, 1) > 2 && Min(current + s, total) < total - 2
    ensures LargeWindow(PaginationRange(current, total, s), current, total, s)
  {
    var r := PaginationRange(current, total, s);
    var left := current - s;
    assert r == [Page(1), Dots] + Run(left, 2 * s + 1) + [Dots, Page(total)];
    BothDotsShape(r, left, 2 * s + 1, total);
    assert r[s + 2] == Page(current);
  }

  /** A window 1, "...", len pages from first, "...", total is well formed
      when both runs of hidden pages are non-empty. */
  lemma BothDotsShape(r: seq<PageItem>, first: int, len: nat, total: int)
    requires first > 2 && len >= 1 && first + len - 1 < total - 2
    requires r == [Page(1), Dots] + Run(first, len) + [Dots, Page(total)]
    ensures |r| == len + 4 && r[0] == Page(1) && r[|r| - 1] == Page(total)
    ensures Increasing(r) && DotsHideSomePage(r) && PagesWithin(r, total)
  {
    assert |r| == len + 4;
    assert forall i :: 2 <= i < len + 2 ==> r[i] == Page(first + i - 2);
    assert r[0] == Page(1) && r[1] == Dots && r[len + 2] == Dots && r[len + 3] == Page(total);
    assert forall i :: 0 <= i < |r| && r[i].Page? ==>
      (i == 0 && r[i].n == 1) || (2 <= i < len + 2 && r[i].n == first + i - 2) || (i == len + 3 && r[i].n == total);
  }

  /** For more pages than fit, whatever the current page, the window has
      the large shape. */
  lemma {:induction false} LargeTotalWindowShape(current: int, total: int, siblingCount: nat)
    requires total > 2 * siblingCount + 5
    ensures LargeWindow(PaginationRange(current, total, siblingCount), current, total, siblingCount)
  {
    var s := siblingCount;
    if Max(current - s, 1) <= 2 {
      RightDotsWindow(current, total, s);
    } else if Min(current + s, total) >= total - 2 {
      LeftDotsWindow(current, total, s);
    } else {
      BothDotsWindow(current, total, s);
    }
  }

  /** Whatever the inputs, the window is increasing, its "..." markers hide
      pages, and every page shown exists. */
  lemma {:induction false} WindowIsWellFormed(current: int, total: int, siblingCount: nat)
    ensures var r := PaginationRange(current, total, siblingCount);
      Increasing(r) && DotsHideSomePage(r) && PagesWithin(r, total)
  {
    if total > 2 * siblingCount + 5 {
      LargeTotalWindowShape(current, total, siblingCount);
    }
  }

  /** Any valid current page is shown, for small and large totals alike. */
  lemma {:induction false} CurrentPageIsShown(current: int, total: int, siblingCount: nat)
    requires 1 <= current <= total
    ensures Page(current) in PaginationRange(current, total, siblingCount)
  {
    var r := PaginationRange(current, total, siblingCount);
    if total > 2 * siblingCount + 5 {
      LargeTotalWindowShape(current, total, siblingCount);
    } else {
      assert r[current - 1] == Page(current);
    }
  }

  /** Concrete windows with one sibling: ten pages seen from the middle,
      the first and the last page, seven pages, and no pages at all. */
  lemma Examples()
    ensures PaginationRange(5, 10, 1) == [Page(1), Dots, Page(4), Page(5), Page(6), Dots, Page(10)]
    ensures PaginationRange(1, 10, 1) == [Page(1), Page(2), Page(3), Page(4), Page(5), Dots, Page(10)]
    ensures PaginationRange(10, 10, 1) == [Page(1), Dots, Page(6), Page(7), Page(8), Page(9), Page(10)]
    ensures PaginationRange(3, 7, 1) == [Page(1), Page(2), Page(3), Page(4), Page(5), Page(6), Page(7)]
    ensures PaginationRange(1, 0, 1) == []
  {
    assert Run(4, 3) == [Page(4), Page(5), Page(6)];
    assert Run(1, 5) == [Page(1), Page(2), Page(3), Page(4), Page(5)];
    assert Run(6, 5) == [Page(6), Page(7), Page(8), Page(9), Page(10)];
    assert Run(1, 7) == [Page(1), Page(2), Page(3), Page(4), Page(5), Page(6), Page(7)];
  }
}
