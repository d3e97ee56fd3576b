/** The pager under a data table (components/ui/data-table-pagination.tsx).
    The table library keeps the pagination state; the pager reads the
    0-based page index and the page count, shows the window of
    `Pagination.PaginationRange` for the 1-based page, highlights the current
    page and delegates clicks to the table. */
module PagerView {
  import opened JsPrelude
  import opened Pagination

  /** What the pager renders for one window entry: a page button, possibly
      highlighted, or an inert "..." span with no click handler. */
  datatype PagerEntry = PageButton(page: int, active: bool) | DotsSpan

  /** The page-size choices of the size selector. */
  const PageSizeChoices: seq<int> := [10, 20, 25, 30, 40, 50]

  /** The window for the 0-based page index: the 1-based page is
      pageIndex + 1, with the default single sibling. */
  function PageRange(pageIndex: int, pageCount: int): seq<PageItem>
  {
    PaginationRange(pageIndex + 1, pageCount, 1)
  }

  /** Floor division brackets its dividend between two multiples of the
      divisor. */
  lemma FloorDivBounds(a: int, b: int)
    requires b > 0
    ensures (a / b) * b <= a < (a / b + 1) * b
  {
    assert a == (a / b) * b + a % b;
  }

  /** A page button is highlighted when the table's page index is the
      button's page minus one. */
  predicate IsActive(pageIndex: int, page: int)
  {
    pageIndex == page - 1
  }

  function EntryFor(pageIndex: int, item: PageItem): PagerEntry
  {
    match item
    case Page(p) => PageButton(p, IsActive(pageIndex, p))
    case Dots => DotsSpan
  }

  /** The rendered row of entries, one per window item. */
  function Entries(pageIndex: int, pageCount: int): (e: seq<PagerEntry>)
    ensures |e| == |PageRange(pageIndex, pageCount)|
  {
    var r := PageRange(pageIndex, pageCount);
    seq(|r|, i requires 0 <= i < |r| => EntryFor(pageIndex, r[i]))
  }

  /** The page index a click on an entry sets: a page button sets its page
      minus one; a "..." span has no handler. */
  function ClickTarget(e: PagerEntry): Option<int>
  {
    match e
    case PageButton(p, _) => Some(p - 1)
    case DotsSpan => None
  }

  predicate Highlighted(e: PagerEntry)
  {
    e.PageButton? && e.active
  }

  /** With a valid page index, exactly one entry is highlighted, and it is
      the button of page pageIndex + 1. */
  lemma {:induction false} ExactlyOneHighlighted(pageIndex: int, pageCount: int)
    requires 0 <= pageIndex < pageCount
    ensures var e := Entries(pageIndex, pageCount);
      exists k :: 0 <= k < |e| && e[k] == PageButton(pageIndex + 1, true) &&
        forall i :: 0 <= i < |e| && Highlighted(e[i]) ==> i == k
  {
    var r := PageRange(pageIndex, pageCount);
    var e := Entries(pageIndex, pageCount);
    CurrentPageIsShown(pageIndex + 1, pageCount, 1);
    WindowIsWellFormed(pageIndex + 1, pageCount, 1);
    var k :| 0 <= k < |r| && r[k] == Page(pageIndex + 1);
    assert e[k] == PageButton(pageIndex + 1, true);
    forall i | 0 <= i < |e| && Highlighted(e[i])
      ensures i == k
    {
      assert e[i] == EntryFor(pageIndex, r[i]);
      assert r[i] == Page(pageIndex + 1);
    }
  }

  /** Clicking any page button makes that page the highlighted one, and a
      "..." span does nothing. */
  lemma ClickHighlightsClickedPage(pageIndex: int, pageCount: int, i: int)
    requires 0 <= i < |Entries(pageIndex, pageCount)|
    ensures var e := Entries(pageIndex, pageCount)[i];
      (e.DotsSpan? <==> ClickTarget(e) == None) &&
      (e.PageButton? ==>
         ClickTarget(e).Some? && Highlighted(EntryFor(ClickTarget(e).value, Page(e.page))))
  {
  }

  /** The table's pagination state: the 0-based page index, the page size,
      and the number of rows before pagination (the table library's filtered
      row model). */
  class Pager {
    var pageIndex: int
    var pageSize: int
    var rowCount: nat

    ghost predicate Valid()
      reads this
    {
      pageIndex >= 0 && pageSize >= 1
    }

    /** getPageCount(): ceil(rowCount / pageSize). */
    function PageCount(): (c: nat)
      reads this
      requires Valid()
      ensures c * pageSize >= rowCount
      ensures c > 0 ==> (c - 1) * pageSize < rowCount
    {
      (rowCount + pageSize - 1) / pageSize
    }

    /** getCanPreviousPage() */
    predicate CanPreviousPage()
      reads this
    {
      pageIndex > 0
    }

    /** getCanNextPage() */
    predicate CanNextPage()
      reads this
      requires Valid()
    {
      PageCount() != 0 && pageIndex < PageCount() - 1
    }

    /** The page index names an existing page (or page 0 of an empty table). */
    ghost predicate OnExistingPage()
      reads this
      requires Valid()
    {
      pageIndex < Max(PageCount(), 1)
    }

    /** The table's initial pagination state: first page, ten rows a page. */
    constructor (rows: nat)
      ensures Valid() && OnExistingPage()
      ensures pageIndex == 0 && pageSize == 10 && rowCount == rows
    {
      pageIndex, pageSize, rowCount := 0, 10, rows;
    }

    /** A click on the button of a page the window shows sets the page index
        to that page minus one, so that page becomes the highlighted one and
        the index still names an existing page. */
    method ClickPage(page: int)
      requires Valid() && Page(page) in PageRange(pageIndex, PageCount())
      modifies this`pageIndex
      ensures Valid() && OnExistingPage()
      ensures pageIndex == page - 1 && IsActive(pageIndex, page)
    {
      WindowIsWellFormed(pageIndex + 1, PageCount(), 1);
      pageIndex := page - 1;
    }

    /** The previous-page button: disabled exactly when the table cannot go
        back; otherwise it moves one page back. */
    method ClickPrevious()
      requires Valid()
      modifies this`pageIndex
      ensures Valid()
      ensures old(CanPreviousPage()) ==> pageIndex == old(pageIndex) - 1
      ensures !old(CanPreviousPage()) ==> pageIndex == old(pageIndex)
      ensures old(OnExistingPage()) ==> OnExistingPage()
    {
      if CanPreviousPage() {
        pageIndex := pageIndex - 1;
      }
    }

    /** The next-page button: disabled exactly when the table cannot go
        forward; otherwise it moves one page on, never past the last page. */
    method ClickNext()
      requires Valid()
      modifies this`pageIndex
      ensures Valid()
      ensures old(CanNextPage()) ==> pageIndex == old(pageIndex) + 1
      ensures !old(CanNextPage()) ==> pageIndex == old(pageIndex)
      ensures old(OnExistingPage()) ==> OnExistingPage()
    {
      if CanNextPage() {
        pageIndex := pageIndex + 1;
      }
    }

    /** Choosing one of the page-size choices sets the page size to that
        number; the table library keeps the first row of the current page
        visible, so the page index becomes floor(oldSize * oldIndex / size). */
    method ChoosePageSize(size: int)
      requires Valid() && size in PageSizeChoices
      modifies this`pageIndex, this`pageSize
      ensures Valid()
      ensures pageSize == size
      ensures pageIndex == (old(pageSize) * old(pageIndex)) / size
      ensures pageIndex * size <= old(pageSize) * old(pageIndex) < (pageIndex + 1) * size
    {
      FloorDivBounds(pageSize * pageIndex, size);
      pageIndex := (pageSize * pageIndex) / size;
      pageSize := size;
    }
  }
}
