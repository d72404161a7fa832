/**
 * Pagination: a numeric bar (page buttons in a window around the current
 * page, the first and last pages, ellipses over the gaps), a simple
 * previous/next bar, and a "load more" mode that counts loaded items.
 */
module Pagination {
  import opened Common

  function Max(a: int, b: int): int { if a >= b then a else b }
  function Min(a: int, b: int): int { if a <= b then a else b }

  /**
   * _calculate_visible_range: a window of about `maxVisible` pages centred
   * on the current page, shifted to stay within [1, total] when it runs
   * into either end.
   */
  function VisibleRange(current: int, total: int, maxVisible: int): (r: (int, int))
  {
    var half := maxVisible / 2;
    var start := Max(1, current - half);
    var end := Min(total, current + half);
    if end - start + 1 < maxVisible then
      if start == 1 then (start, Min(total, start + maxVisible - 1))
      else if end == total then (Max(1, end - maxVisible + 1), end)
      else (start, end)
    else (start, end)
  }

  /** The window lies within [1, total] and holds the current page. */
  lemma VisibleRangeBounds(current: int, total: int, maxVisible: int)
    requires 1 <= current <= total && maxVisible >= 1
    ensures var (s, e) := VisibleRange(current, total, maxVisible); 1 <= s <= current <= e <= total
  {
  }

  /** For an odd `maxVisible` the window holds `min(maxVisible, total)` pages. */
  lemma VisibleRangeSize(current: int, total: int, maxVisible: int)
    requires 1 <= current <= total && maxVisible >= 1 && maxVisible % 2 == 1
    ensures var (s, e) := VisibleRange(current, total, maxVisible); e - s + 1 == Min(maxVisible, total)
  {
  }

  datatype PageItem = PageButton(page: int, isCurrent: bool) | Ellipsis

  function Button(page: int, current: int): PageItem { PageButton(page, page == current) }

  /** The buttons for pages `lo` to `hi`, in order. */
  function PageRun(lo: int, hi: int, current: int): (r: seq<PageItem>)
    decreases hi - lo + 1
    ensures |r| == (if hi >= lo then hi - lo + 1 else 0)
    ensures forall i :: 0 <= i < |r| ==> r[i] == Button(lo + i, current)
  {
    if hi < lo then [] else [Button(lo, current)] + PageRun(lo + 1, hi, current)
  }

  /** Page 1 and an ellipsis in front of a window that starts after page 1 (after page 2, for the ellipsis). */
  function Lead(s: int, current: int): seq<PageItem>
  {
    if s > 1 then [Button(1, current)] + (if s > 2 then [Ellipsis] else []) else []
  }

  /** An ellipsis and the last page after a window that ends before it (before its predecessor, for the ellipsis). */
  function Trail(e: int, total: int, current: int): seq<PageItem>
  {
    if e < total then (if e < total - 1 then [Ellipsis] else []) + [Button(total, current)] else []
  }

  /** The numeric bar: nothing for a single page; otherwise page 1, "...", the window, "...", the last page. */
  function PageItems(current: int, total: int, maxVisible: int): seq<PageItem>
  {
    if total <= 1 then []
    else
      var (s, e) := VisibleRange(current, total, maxVisible);
      Lead(s, current) + PageRun(s, e, current) + Trail(e, total, current)
  }

  /**
   * A bar that starts at page 1 and ends at `total`, in which neighbouring
   * buttons are consecutive pages and an ellipsis stands exactly for a gap
   * between the buttons around it; only the current page is marked.
   */
  ghost predicate WellFormedBar(items: seq<PageItem>, current: int, total: int)
  {
    |items| >= 2
    && items[0] == Button(1, current) && items[|items| - 1] == Button(total, current)
    && (forall i :: 0 <= i < |items| - 1 && items[i].PageButton? && items[i + 1].PageButton? ==>
          items[i + 1].page == items[i].page + 1)
    && (forall i :: 0 <= i < |items| && items[i].Ellipsis? ==>
          0 < i < |items| - 1 && items[i - 1].PageButton? && items[i + 1].PageButton?
          && items[i + 1].page > items[i - 1].page + 1)
    && (forall i :: 0 <= i < |items| && items[i].PageButton? ==> items[i].isCurrent == (items[i].page == current))
  }

  /** With more than one page, the bar is well formed and shows the current page. */
  lemma PageItemsWellFormed(current: int, total: int, maxVisible: int)
    requires 1 <= current <= total && total > 1 && maxVisible >= 1
    ensures WellFormedBar(PageItems(current, total, maxVisible), current, total)
    ensures Button(current, current) in PageItems(current, total, maxVisible)
  {
    VisibleRangeBounds(current, total, maxVisible);
    var (s, e) := VisibleRange(current, total, maxVisible);
    var run := PageRun(s, e, current);
    assert run[current - s] == Button(current, current);
    BarWellFormed(Lead(s, current), run, Trail(e, total, current), s, e, current, total);
  }

  /** Page 1 and the lead, the window from `s` to `e`, and the trail up to `total` make a well-formed bar. */
  lemma BarWellFormed(lead: seq<PageItem>, run: seq<PageItem>, trail: seq<PageItem>, s: int, e: int, current: int, total: int)
    requires 1 <= s <= e <= total && total > 1
    requires lead == Lead(s, current) && run == PageRun(s, e, current) && trail == Trail(e, total, current)
    ensures WellFormedBar(lead + run + trail, current, total)
  {
    var items := lead + run + trail;
    var n := |lead|;
    assert |items| >= 2 by {
      if s == 1 { assert e < total || |run| >= 2; }
    }
    assert items[0] == Button(1, current) by {
      if s == 1 { assert items[0] == run[0]; }
    }
    assert items[|items| - 1] == Button(total, current) by {
      if e == total { assert items[|items| - 1] == run[|run| - 1]; }
    }
    BarMarks(lead, run, trail, s, e, current, total);
    BarNeighbours(lead, run, trail, s, e, current, total);
    BarEllipses(lead, run, trail, s, e, current, total);
  }

  lemma BarMarks(lead: seq<PageItem>, run: seq<PageItem>, trail: seq<PageItem>, s: int, e: int, current: int, total: int)
    requires 1 <= s <= e <= total && total > 1
    requires lead == Lead(s, current) && run == PageRun(s, e, current) && trail == Trail(e, total, current)
    ensures var items := lead + run + trail;
      forall i :: 0 <= i < |items| && items[i].PageButton? ==> items[i].isCurrent == (items[i].page == current)
  {
    var items := lead + run + trail;
    var n := |lead|;
    forall i | 0 <= i < |items| && items[i].PageButton?
      ensures items[i].isCurrent == (items[i].page == current)
    {
      if n <= i < n + |run| {
        assert items[i] == run[i - n];
      }
    }
  }

  lemma BarNeighbours(lead: seq<PageItem>, run: seq<PageItem>, trail: seq<PageItem>, s: int, e: int, current: int, total: int)
    requires 1 <= s <= e <= total && total > 1
    requires lead == Lead(s, current) && run == PageRun(s, e, current) && trail == Trail(e, total, current)
    ensures var items := lead + run + trail;
      forall i :: 0 <= i < |items| - 1 && items[i].PageButton? && items[i + 1].PageButton? ==>
        items[i + 1].page == items[i].page + 1
  {
    var items := lead + run + trail;
    var n := |lead|;
    forall i | 0 <= i < |items| - 1 && items[i].PageButton? && items[i + 1].PageButton?
      ensures items[i + 1].page == items[i].page + 1
    {
      if i < n && i + 1 < n {
      } else if i < n {
        assert items[i] == Button(1, current) && items[i + 1] == run[0];
      } else if i + 1 < n + |run| {
        assert items[i] == run[i - n] && items[i + 1] == run[i + 1 - n];
      } else if i < n + |run| {
        assert items[i] == run[|run| - 1];
      }
    }
  }

  lemma BarEllipses(lead: seq<PageItem>, run: seq<PageItem>, trail: seq<PageItem>, s: int, e: int, current: int, total: int)
    requires 1 <= s <= e <= total && total > 1
    requires lead == Lead(s, current) && run == PageRun(s, e, current) && trail == Trail(e, total, current)
    ensures var items := lead + run + trail;
      forall i :: 0 <= i < |items| && items[i].Ellipsis? ==>
        0 < i < |items| - 1 && items[i - 1].PageButton? && items[i + 1].PageButton?
        && items[i + 1].page > items[i - 1].page + 1
  {
    var items := lead + run + trail;
    var n := |lead|;
    assert forall j :: n <= j < n + |run| ==> items[j] == run[j - n];
    forall i | 0 <= i < |items| && items[i].Ellipsis?
      ensures 0 < i < |items| - 1 && items[i - 1].PageButton? && items[i + 1].PageButton?
      ensures items[i + 1].page > items[i - 1].page + 1
    {
      if i < n {
        assert i == 1 && items[0] == Button(1, current) && items[2] == run[0];
      } else {
        assert i == n + |run| && items[i - 1] == run[|run| - 1];
      }
    }
  }

  /** "Page {current} of {total}". */
  function PageInfo(current: int, total: int): string {
    "Page " + IntToStr(current) + " of " + IntToStr(total)
  }

  /** "Showing {n} of {total} items" when a non-zero total is known, else "Showing {n} items". */
  function ItemsInfo(current: int, total: Option<int>): (t: string)
    ensures total.Some? && total.value != 0 ==> t == "Showing " + IntToStr(current) + " of " + IntToStr(total.value) + " items"
    ensures total.None? || total.value == 0 ==> t == "Showing " + IntToStr(current) + " items"
  {
    if total.Some? && total.value != 0 then "Showing " + IntToStr(current) + " of " + IntToStr(total.value) + " items"
    else "Showing " + IntToStr(current) + " items"
  }

  class PaginationWidget {
    var mode: string
    var totalPages: int
    var currentPage: int
    const maxVisible: int
    /** The numeric bar's buttons and ellipses. */
    var items: seq<PageItem>
    var prevEnabled: bool
    var nextEnabled: bool
    var pageInfo: string
    /** The "load more" button and the items label exist once that mode has been set up. */
    var hasLoadMore: bool
    var loadMoreText: string
    var loadMoreEnabled: bool
    var loadMoreVisible: bool
    var itemsInfo: string
    /**
     * Whether the controls are in the layout Qt installed on the widget,
     * and so on screen.
     */
    var attached: bool

    /** In numeric mode the bar always shows the current state. */
    ghost predicate Valid()
      reads this
    {
      mode == "numeric" ==> items == PageItems(currentPage, totalPages, maxVisible)
    }

    constructor (mode0: string, total: int, current: int, maxVisible0: int)
      ensures Valid()
      ensures mode == mode0 && totalPages == total && currentPage == current && maxVisible == maxVisible0
      ensures hasLoadMore == (mode0 == "load_more")
      ensures mode0 == "simple" ==> prevEnabled == (current > 1) && nextEnabled == (current < total)
      ensures mode0 == "load_more" ==> itemsInfo == "Showing items 1-20" && loadMoreVisible
      ensures attached
    {
      mode, totalPages, currentPage, maxVisible, attached := mode0, total, current, maxVisible0, true;
      items, prevEnabled, nextEnabled, pageInfo := [], true, true, "";
      hasLoadMore, loadMoreText, loadMoreEnabled, loadMoreVisible, itemsInfo := false, "", true, true, "";
      new;
      SetupUi();
    }

    method SetupUi()
      modifies this
      ensures Valid()
      ensures mode == old(mode) && totalPages == old(totalPages) && currentPage == old(currentPage)
      ensures attached == old(attached)
      ensures hasLoadMore == (old(hasLoadMore) || mode == "load_more")
      ensures mode == "numeric" && totalPages <= 1 ==> prevEnabled && nextEnabled && pageInfo == ""
      ensures (mode == "numeric" && totalPages > 1) || mode == "simple" ==>
                prevEnabled == (currentPage > 1) && nextEnabled == (currentPage < totalPages)
                && pageInfo == PageInfo(currentPage, totalPages)
      ensures mode == "load_more" ==> itemsInfo == "Showing items 1-20" && loadMoreText == "Load More" && loadMoreVisible
    {
      if mode == "numeric" {
        prevEnabled, nextEnabled, pageInfo := true, true, "";
        UpdateNumeric();
      } else if mode == "simple" {
        UpdateSimple();
      } else if mode == "load_more" {
        hasLoadMore := true;
        loadMoreText, loadMoreEnabled, loadMoreVisible := "Load More", true, true;
        itemsInfo := "Showing items 1-20";
      }
    }

    /** Rebuilds the bar; with a single page it stops before touching the arrows and the label. */
    method UpdateNumeric()
      modifies this`items, this`prevEnabled, this`nextEnabled, this`pageInfo
      ensures items == PageItems(currentPage, totalPages, maxVisible)
      ensures totalPages <= 1 ==> prevEnabled == old(prevEnabled) && nextEnabled == old(nextEnabled) && pageInfo == old(pageInfo)
      ensures totalPages > 1 ==> prevEnabled == (currentPage > 1) && nextEnabled == (currentPage < totalPages)
      ensures totalPages > 1 ==> pageInfo == PageInfo(currentPage, totalPages)
    {
      items := PageItems(currentPage, totalPages, maxVisible);
      if totalPages <= 1 {
        return;
      }
      prevEnabled := currentPage > 1;
      nextEnabled := currentPage < totalPages;
      pageInfo := PageInfo(currentPage, totalPages);
    }

    method UpdateSimple()
      modifies this`prevEnabled, this`nextEnabled, this`pageInfo
      ensures prevEnabled == (currentPage > 1) && nextEnabled == (currentPage < totalPages)
      ensures pageInfo == PageInfo(currentPage, totalPages)
    {
      prevEnabled := currentPage > 1;
      nextEnabled := currentPage < totalPages;
      pageInfo := PageInfo(currentPage, totalPages);
    }

    method Refresh()
      modifies this`items, this`prevEnabled, this`nextEnabled, this`pageInfo
      ensures Valid()
    {
      if mode == "numeric" {
        UpdateNumeric();
      } else if mode == "simple" {
        UpdateSimple();
      }
    }

    /** Only a page in [1, total] other than the current one is taken, and only then is `page_changed` emitted. */
    method SetCurrentPage(page: int) returns (pageChanged: Option<int>)
      requires Valid()
      modifies this`currentPage, this`items, this`prevEnabled, this`nextEnabled, this`pageInfo
      ensures Valid()
      ensures 1 <= page <= totalPages && page != old(currentPage) ==> currentPage == page && pageChanged == Some(page)
      ensures !(1 <= page <= totalPages && page != old(currentPage)) ==> currentPage == old(currentPage) && pageChanged == None
    {
      pageChanged := None;
      if 1 <= page <= totalPages && page != currentPage {
        currentPage := page;
        Refresh();
        pageChanged := Some(page);
      }
    }

    /** Stores max(1, n) and brings the current page down to it. */
    method SetTotalPages(n: int)
      requires Valid()
      modifies this`totalPages, this`currentPage, this`items, this`prevEnabled, this`nextEnabled, this`pageInfo
      ensures Valid()
      ensures totalPages == Max(1, n)
      ensures currentPage == Min(old(currentPage), totalPages)
    {
      totalPages := Max(1, n);
      if currentPage > totalPages {
        currentPage := totalPages;
      }
      Refresh();
    }

    /** The previous page, if the current one is above 1; a page taken lies in [1, total]. */
    method GoToPrevious() returns (pageChanged: Option<int>)
      requires Valid()
      modifies this`currentPage, this`items, this`prevEnabled, this`nextEnabled, this`pageInfo
      ensures Valid()
      ensures currentPage == old(currentPage) || (currentPage == old(currentPage) - 1 && 1 <= currentPage <= totalPages)
      ensures pageChanged.Some? <==> currentPage != old(currentPage)
    {
      pageChanged := None;
      if currentPage > 1 {
        pageChanged := SetCurrentPage(currentPage - 1);
      }
    }

    /** The next page, if the current one is below the total; a page taken lies in [1, total]. */
    method GoToNext() returns (pageChanged: Option<int>)
      requires Valid()
      modifies this`currentPage, this`items, this`prevEnabled, this`nextEnabled, this`pageInfo
      ensures Valid()
      ensures currentPage == old(currentPage) || (currentPage == old(currentPage) + 1 && 1 <= currentPage <= totalPages)
      ensures pageChanged.Some? <==> currentPage != old(currentPage)
    {
      pageChanged := None;
      if currentPage < totalPages {
        pageChanged := SetCurrentPage(currentPage + 1);
      }
    }

    /**
     * A different mode detaches the old controls and runs the setup again.
     * Its `QHBoxLayout(self)` is refused, because the widget already has
     * the layout the first setup installed, so the new controls live in a
     * layout no widget shows. The same mode changes nothing.
     */
    method SetMode(m: string)
      requires Valid()
      modifies this
      ensures Valid() && mode == m
      ensures totalPages == old(totalPages) && currentPage == old(currentPage)
      ensures m != old(mode) ==> !attached
      ensures m == old(mode) ==> attached == old(attached)
    {
      if m != mode {
        mode, attached := m, false;
        SetupUi();
      }
    }

    /** `set_mode` as intended: the new mode's controls replace the old ones on screen. */
    method SetModeIntended(m: string)
      requires Valid()
      modifies this
      ensures Valid() && mode == m && attached == old(attached)
      ensures totalPages == old(totalPages) && currentPage == old(currentPage)
      ensures m != old(mode) && m == "simple" ==>
                prevEnabled == (currentPage > 1) && nextEnabled == (currentPage < totalPages)
                && pageInfo == PageInfo(currentPage, totalPages)
    {
      if m != mode {
        mode := m;
        SetupUi();
      }
    }

    /** In load-more mode the button shows "Loading..." disabled, or "Load More" enabled. */
    method SetLoadingState(loading: bool)
      modifies this`loadMoreText, this`loadMoreEnabled
      ensures mode == "load_more" && hasLoadMore ==>
                loadMoreText == (if loading then "Loading..." else "Load More") && loadMoreEnabled == !loading
      ensures !(mode == "load_more" && hasLoadMore) ==>
                loadMoreText == old(loadMoreText) && loadMoreEnabled == old(loadMoreEnabled)
    {
      if mode == "load_more" && hasLoadMore {
        loadMoreText := if loading then "Loading..." else "Load More";
        loadMoreEnabled := !loading;
      }
    }

    method UpdateItemsInfo(current: int, total: Option<int>)
      modifies this`itemsInfo
      ensures itemsInfo == if mode == "load_more" && hasLoadMore then ItemsInfo(current, total) else old(itemsInfo)
    {
      if mode == "load_more" && hasLoadMore {
        itemsInfo := ItemsInfo(current, total);
      }
    }

    /**
     * A click on the load-more button: `_on_load_more` emits
     * `load_more_requested`, and Qt delivers the click only to a button
     * that exists, is shown and is enabled.
     */
    method ClickLoadMore() returns (loadMoreRequested: bool)
      ensures loadMoreRequested <==> hasLoadMore && loadMoreVisible && loadMoreEnabled
    {
      loadMoreRequested := hasLoadMore && loadMoreVisible && loadMoreEnabled;
    }

    /** While the button shows "Loading...", a click requests nothing more. */
    method ClickWhileLoading() returns (loadMoreRequested: bool)
      requires mode == "load_more" && hasLoadMore
      modifies this`loadMoreText, this`loadMoreEnabled
      ensures loadMoreText == "Loading..." && !loadMoreRequested
    {
      SetLoadingState(true);
      loadMoreRequested := ClickLoadMore();
    }
  }

  /** As written, a numeric bar switched to simple mode shows no controls at all. */
  method ControlsHiddenAfterSetMode() returns (before: bool, after: bool)
    ensures before && !after
  {
    var w := new PaginationWidget("numeric", 10, 3, 7);
    before := w.attached;
    w.SetMode("simple");
    after := w.attached;
  }

  /** As intended, the same bar shows its simple controls for page 3 of 10. */
  method ControlsShownAfterSetModeIntended() returns (after: bool, info: string)
    ensures after && info == PageInfo(3, 10)
  {
    var w := new PaginationWidget("numeric", 10, 3, 7);
    w.SetModeIntended("simple");
    after, info := w.attached, w.pageInfo;
  }

  /** Load-more pagination that counts the items loaded so far. */
  class InfiniteScrollPagination {
    const widget: PaginationWidget
    var currentItems: int
    var totalItems: Option<int>

    ghost predicate Valid()
      reads this, widget
    {
      widget.mode == "load_more" && widget.hasLoadMore
    }

    constructor ()
      ensures Valid() && fresh(widget) && currentItems == 0 && totalItems == None
    {
      widget := new PaginationWidget("load_more", 1, 1, 7);
      currentItems, totalItems := 0, None;
    }

    method AddItems(count: int)
      requires Valid()
      modifies this`currentItems, widget`itemsInfo
      ensures Valid()
      ensures currentItems == old(currentItems) + count
      ensures widget.itemsInfo == ItemsInfo(currentItems, totalItems)
    {
      currentItems := currentItems + count;
      widget.UpdateItemsInfo(currentItems, totalItems);
    }

    /** The button is hidden once every item is loaded. */
    method SetTotalItems(total: int)
      requires Valid()
      modifies this`totalItems, widget`itemsInfo, widget`loadMoreVisible
      ensures Valid()
      ensures totalItems == Some(total)
      ensures widget.itemsInfo == ItemsInfo(currentItems, Some(total))
      ensures widget.loadMoreVisible == (currentItems < total)
    {
      totalItems := Some(total);
      widget.UpdateItemsInfo(currentItems, totalItems);
      widget.loadMoreVisible := currentItems < total;
    }

    method Reset()
      requires Valid()
      modifies this`currentItems, this`totalItems, widget`itemsInfo, widget`loadMoreVisible
      ensures Valid()
      ensures currentItems == 0 && totalItems == None
      ensures widget.itemsInfo == "Showing 0 items" && widget.loadMoreVisible
    {
      currentItems, totalItems := 0, None;
      widget.UpdateItemsInfo(0, None);
      widget.loadMoreVisible := true;
    }
  }

  /** A compact simple-mode bar whose arrows read "‹" and "›". */
  class CompactPagination {
    const widget: PaginationWidget
    const previousText: string
    const nextText: string

    constructor (total: int, current: int)
      ensures fresh(widget) && widget.mode == "simple"
      ensures widget.totalPages == total && widget.currentPage == current
      ensures widget.prevEnabled == (current > 1) && widget.nextEnabled == (current < total)
      ensures previousText == "‹" && nextText == "›"
    {
      widget := new PaginationWidget("simple", total, current, 7);
      previousText, nextText := "‹", "›";
    }
  }
}
