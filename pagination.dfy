/** The pagination control: the "Showing X to Y of Z" range, the windowed list of page
    buttons with ellipsis markers, and which controls are enabled and where they lead. */
module Pagination {
  import opened Wrappers
  import Formatters
  import Strings

  const MaxVisiblePages := 5

  /** One entry of the page-button list: a page number or the `'...'` marker. */
  datatype PageItem = Number(n: int) | Ellipsis

  /** The 1-based positions of the first and last item shown on the current page. */
  datatype ItemRange = ItemRange(startItem: int, endItem: int)

  function Min(a: int, b: int): int {
    if a <= b then a else b
  }

  /** `calculateItemRange`: the page's first item follows the `currentPage - 1` full pages
      before it; its last item is the end of the page, cut off at the last item overall. */
  function CalculateItemRange(currentPage: int, itemsPerPage: int, totalItems: int): (r: ItemRange)
    ensures r.startItem == (currentPage - 1) * itemsPerPage + 1
    ensures r.endItem <= totalItems && r.endItem <= currentPage * itemsPerPage
    ensures r.endItem == totalItems || r.endItem == currentPage * itemsPerPage
  {
    ItemRange((currentPage - 1) * itemsPerPage + 1, Min(currentPage * itemsPerPage, totalItems))
  }

  /** For a page that holds at least one item, the range is a non-empty stretch of at most
      `itemsPerPage` items inside `1..totalItems`, and it is full unless it is the last page. */
  lemma ItemRangeOfPopulatedPage(currentPage: int, itemsPerPage: int, totalItems: int)
    requires itemsPerPage >= 1 && currentPage >= 1
    requires (currentPage - 1) * itemsPerPage < totalItems
    ensures var r := CalculateItemRange(currentPage, itemsPerPage, totalItems);
      && 1 <= r.startItem <= r.endItem <= totalItems
      && r.endItem - r.startItem + 1 <= itemsPerPage
      && (r.endItem - r.startItem + 1 == itemsPerPage || r.endItem == totalItems)
  {
    assert currentPage * itemsPerPage == (currentPage - 1) * itemsPerPage + itemsPerPage;
    assert (currentPage - 1) * itemsPerPage >= 0;
  }

  /** Consecutive pages tile the items: the next page starts right after this one ends. */
  lemma ItemRangesTile(currentPage: int, itemsPerPage: int, totalItems: int)
    requires itemsPerPage >= 1 && currentPage >= 1
    requires currentPage * itemsPerPage < totalItems
    ensures CalculateItemRange(currentPage + 1, itemsPerPage, totalItems).startItem
         == CalculateItemRange(currentPage, itemsPerPage, totalItems).endItem + 1
  {
  }

  /** The page numbers `lo..hi` as buttons. */
  function Run(lo: int, hi: int): (r: seq<PageItem>)
    ensures |r| == if lo <= hi then hi - lo + 1 else 0
    ensures forall i :: 0 <= i < |r| ==> r[i] == Number(lo + i)
  {
    if lo <= hi then seq(hi - lo + 1, i => Number(lo + i)) else []
  }

  /** The button list `generatePageNumbers` builds: every page when there are at most five,
      otherwise four pages at the start, four at the end, or the current page with its two
      neighbours, with `'...'` standing for the pages left out. */
  function PageNumbers(currentPage: int, totalPages: int): seq<PageItem> {
    if totalPages <= MaxVisiblePages then Run(1, totalPages)
    else if currentPage <= 3 then Run(1, 4) + [Ellipsis, Number(totalPages)]
    else if currentPage >= totalPages - 2 then [Number(1), Ellipsis] + Run(totalPages - 3, totalPages)
    else [Number(1), Ellipsis] + Run(currentPage - 1, currentPage + 1) + [Ellipsis, Number(totalPages)]
  }

  /** `generatePageNumbers`: pushes the buttons one at a time, as the source's loops do. */
  method GeneratePageNumbers(currentPage: int, totalPages: int) returns (pages: seq<PageItem>)
    ensures pages == PageNumbers(currentPage, totalPages)
  {
    pages := [];
    if totalPages <= MaxVisiblePages {
      var i := 1;
      while i <= totalPages
        invariant 1 <= i <= (if totalPages >= 1 then totalPages + 1 else 1)
        invariant pages == Run(1, i - 1)
      {
        pages := pages + [Number(i)];
        i := i + 1;
      }
      if totalPages < 1 {
        assert Run(1, totalPages) == [] == Run(1, 0);
      }
      return;
    }
    if currentPage <= 3 {
      var i := 1;
      while i <= 4
        invariant 1 <= i <= 5
        invariant pages == Run(1, i - 1)
      {
        pages := pages + [Number(i)];
        i := i + 1;
      }
      pages := pages + [Ellipsis];
      pages := pages + [Number(totalPages)];
    } else if currentPage >= totalPages - 2 {
      pages := pages + [Number(1)];
      pages := pages + [Ellipsis];
      var i := totalPages - 3;
      while i <= totalPages
        invariant totalPages - 3 <= i <= totalPages + 1
        invariant pages == [Number(1), Ellipsis] + Run(totalPages - 3, i - 1)
      {
        pages := pages + [Number(i)];
        i := i + 1;
      }
    } else {
      pages := pages + [Number(1)];
      pages := pages + [Ellipsis];
      var i := currentPage - 1;
      while i <= currentPage + 1
        invariant currentPage - 1 <= i <= currentPage + 2
        invariant pages == [Number(1), Ellipsis] + Run(currentPage - 1, i - 1)
      {
        pages := pages + [Number(i)];
        i := i + 1;
      }
      pages := pages + [Ellipsis];
      pages := pages + [Number(totalPages)];
    }
  }

  /** A button list that reads as a faithful abbreviation of pages `1..totalPages`: it starts
      at page 1 and ends at the last page; two adjacent numbers are consecutive pages; and an
      ellipsis always sits between two numbers and stands for at least one left-out page. */
  ghost predicate FaithfulWindow(items: seq<PageItem>, totalPages: int) {
    && |items| >= 1
    && items[0] == Number(1)
    && items[|items| - 1] == Number(totalPages)
    && (forall i :: 0 <= i < |items| - 1 && items[i].Number? && items[i + 1].Number? ==>
          items[i + 1].n == items[i].n + 1)
    && (forall i :: 0 < i < |items| - 1 && items[i].Ellipsis? ==>
          items[i - 1].Number? && items[i + 1].Number? && items[i + 1].n >= items[i - 1].n + 2)
  }

  /** The numbers in a button list strictly increase. */
  ghost predicate StrictlyIncreasing(items: seq<PageItem>) {
    forall i, j :: 0 <= i < j < |items| && items[i].Number? && items[j].Number? ==> items[i].n < items[j].n
  }

  /** Up to five pages, the list is exactly `1..totalPages` and has no ellipsis. */
  lemma SmallPageCountListsEveryPage(currentPage: int, totalPages: int)
    requires 1 <= totalPages <= MaxVisiblePages
    ensures var items := PageNumbers(currentPage, totalPages);
      && |items| == totalPages
      && (forall i :: 0 <= i < |items| ==> items[i] == Number(i + 1))
      && Ellipsis !in items
      && FaithfulWindow(items, totalPages)
  {
  }

  /** The list when the current page is among the first three. */
  lemma WindowAtStart(currentPage: int, totalPages: int)
    requires totalPages > MaxVisiblePages && currentPage <= 3
    ensures var items := PageNumbers(currentPage, totalPages);
      && items == [Number(1), Number(2), Number(3), Number(4), Ellipsis, Number(totalPages)]
      && FaithfulWindow(items, totalPages)
      && StrictlyIncreasing(items)
      && (1 <= currentPage ==> items[currentPage - 1] == Number(currentPage))
  {
  }

  /** The list when the current page is among the last three (and not among the first). */
  lemma WindowAtEnd(currentPage: int, totalPages: int)
    requires totalPages > MaxVisiblePages && 3 < currentPage && currentPage >= totalPages - 2
    ensures var items := PageNumbers(currentPage, totalPages);
      && items == [Number(1), Ellipsis, Number(totalPages - 3), Number(totalPages - 2),
                   Number(totalPages - 1), Number(totalPages)]
      && FaithfulWindow(items, totalPages)
      && StrictlyIncreasing(items)
      && (currentPage <= totalPages ==> items[currentPage - totalPages + 5] == Number(currentPage))
  {
    var tail := Run(totalPages - 3, totalPages);
    assert tail == [Number(totalPages - 3), Number(totalPages - 2), Number(totalPages - 1), Number(totalPages)];
    var items := [Number(1), Ellipsis] + tail;
    assert PageNumbers(currentPage, totalPages) == items;
    assert items == [Number(1), Ellipsis, Number(totalPages - 3), Number(totalPages - 2),
                     Number(totalPages - 1), Number(totalPages)];
    if currentPage <= totalPages {
      assert items[currentPage - totalPages + 5] == tail[currentPage - totalPages + 3];
    }
    EndListFaithful(totalPages);
  }

  /** The shape of the list near the end is a faithful window. */
  lemma EndListFaithful(totalPages: int)
    requires totalPages > MaxVisiblePages
    ensures var items := [Number(1), Ellipsis, Number(totalPages - 3), Number(totalPages - 2),
                          Number(totalPages - 1), Number(totalPages)];
      FaithfulWindow(items, totalPages) && StrictlyIncreasing(items)
  {
  }

  /** The list when the current page is away from both ends. */
  lemma WindowInMiddle(currentPage: int, totalPages: int)
    requires totalPages > MaxVisiblePages && 3 < currentPage < totalPages - 2
    ensures var items := PageNumbers(currentPage, totalPages);
      && items == [Number(1), Ellipsis, Number(currentPage - 1), Number(currentPage),
                   Number(currentPage + 1), Ellipsis, Number(totalPages)]
      && FaithfulWindow(items, totalPages)
      && StrictlyIncreasing(items)
      && items[3] == Number(currentPage)
  {
    var middle := Run(currentPage - 1, currentPage + 1);
    assert middle == [Number(currentPage - 1), Number(currentPage), Number(currentPage + 1)];
    MiddleListFaithful(currentPage, totalPages);
  }

  /** The shape of the list away from both ends is a faithful window. */
  lemma MiddleListFaithful(currentPage: int, totalPages: int)
    requires totalPages > MaxVisiblePages && 3 < currentPage < totalPages - 2
    ensures var items := [Number(1), Ellipsis, Number(currentPage - 1), Number(currentPage),
                          Number(currentPage + 1), Ellipsis, Number(totalPages)];
      FaithfulWindow(items, totalPages) && StrictlyIncreasing(items)
  {
  }

  /** Above five pages, the list abbreviates `1..totalPages` faithfully, its numbers strictly
      increase and stay within `1..totalPages`, it has six or seven entries, and it shows the
      current page whenever that page exists. */
  lemma LargePageCountWindow(currentPage: int, totalPages: int)
    requires totalPages > MaxVisiblePages
    ensures var items := PageNumbers(currentPage, totalPages);
      && FaithfulWindow(items, totalPages)
      && StrictlyIncreasing(items)
      && (forall i :: 0 <= i < |items| && items[i].Number? ==> 1 <= items[i].n <= totalPages)
      && (|items| == 6 || |items| == 7)
      && (1 <= currentPage <= totalPages ==> Number(currentPage) in items)
  {
    if currentPage <= 3 {
      WindowAtStart(currentPage, totalPages);
    } else if currentPage >= totalPages - 2 {
      WindowAtEnd(currentPage, totalPages);
    } else {
      WindowInMiddle(currentPage, totalPages);
    }
  }

  /** `handlePageClick`: a number asks for that page; the ellipsis asks for nothing. */
  function HandlePageClick(item: PageItem): (request: Option<int>)
    ensures request.Some? <==> item.Number?
    ensures item.Number? ==> request.value == item.n
  {
    match item
    case Number(n) => Some(n)
    case Ellipsis => None
  }

  /** The three looks a page button can have (`getPageButtonStyles`). */
  datatype ButtonStyle = Active | Dots | Inactive

  /** `getPageButtonStyles`: the current page is highlighted, the ellipsis is inert. */
  function PageButtonStyle(item: PageItem, currentPage: int): ButtonStyle {
    if item == Number(currentPage) then Active
    else if item == Ellipsis then Dots
    else Inactive
  }

  const PageButtonBaseStyles := "min-w-[36px] h-9 px-3 rounded-lg text-xs font-medium transition-all duration-200"
  const ActivePageStyles := "bg-primary-500 text-white shadow-soft"
  const EllipsisStyles := "cursor-default text-gray-400 dark:text-gray-600"
  const InactivePageStyles := "hover:bg-gray-50 dark:hover:bg-gray-800 text-gray-700 dark:text-gray-300 border border-gray-200 dark:border-gray-800"

  /** The classes that only one look adds to the base button styles. */
  function LookStyles(style: ButtonStyle): string {
    match style
    case Active => ActivePageStyles
    case Dots => EllipsisStyles
    case Inactive => InactivePageStyles
  }

  /** The class string for each look, combined with `cn`: the base button styles, one
      space, then the look's own styles. */
  function StyleClasses(style: ButtonStyle): (r: string)
    ensures r == PageButtonBaseStyles + " " + LookStyles(style)
    ensures Strings.StartsWith(r, PageButtonBaseStyles)
  {
    var base := [Formatters.Str(PageButtonBaseStyles)];
    var own := [Formatters.Str(LookStyles(style))];
    Formatters.CnSingle(PageButtonBaseStyles);
    Formatters.CnSingle(LookStyles(style));
    Formatters.CnConcat(base, own);
    assert base + own == [Formatters.Str(PageButtonBaseStyles), Formatters.Str(LookStyles(style))];
    Formatters.Cn(base + own)
  }

  /** One rendered page button. */
  datatype PageButton = PageButton(item: PageItem, disabled: bool, style: ButtonStyle)

  /** What the component renders when it renders anything. */
  datatype View = View(
    range: ItemRange, totalItems: int,
    previousDisabled: bool, nextDisabled: bool,
    buttons: seq<PageButton>)

  /** `Pagination`: nothing for a single page; otherwise the range text, the previous and
      next arrows (disabled on the first and last page) and one button per list entry. */
  function Render(currentPage: int, totalPages: int, totalItems: int, itemsPerPage: int): (v: Option<View>)
    ensures v.None? <==> totalPages <= 1
    ensures v.Some? ==> |v.value.buttons| == |PageNumbers(currentPage, totalPages)|
    ensures v.Some? ==>
      && v.value.range == CalculateItemRange(currentPage, itemsPerPage, totalItems)
      && v.value.totalItems == totalItems
      && v.value.previousDisabled == (currentPage == 1)
      && v.value.nextDisabled == (currentPage == totalPages)
    ensures v.Some? ==> forall i :: 0 <= i < |v.value.buttons| ==>
      && v.value.buttons[i].item == PageNumbers(currentPage, totalPages)[i]
      && v.value.buttons[i].disabled == (v.value.buttons[i].item == Ellipsis)
      && v.value.buttons[i].style == PageButtonStyle(v.value.buttons[i].item, currentPage)
  {
    if totalPages <= 1 then None
    else
      var items := PageNumbers(currentPage, totalPages);
      Some(View(
        CalculateItemRange(currentPage, itemsPerPage, totalItems), totalItems,
        currentPage == 1, currentPage == totalPages,
        seq(|items|, i requires 0 <= i < |items| =>
          PageButton(items[i], items[i] == Ellipsis, PageButtonStyle(items[i], currentPage)))))
  }

  /** Where the previous arrow leads (`onPageChange(currentPage - 1)`). */
  function PreviousTarget(currentPage: int): int { currentPage - 1 }

  /** Where the next arrow leads (`onPageChange(currentPage + 1)`). */
  function NextTarget(currentPage: int): int { currentPage + 1 }

  /** Every enabled control of a rendered pager asks for an existing page: the arrows only
      when they do not run off either end, and every enabled page button for a page in
      `1..totalPages`; the ellipsis buttons are disabled and ask for nothing. */
  lemma EnabledControlsStayInRange(currentPage: int, totalPages: int, totalItems: int, itemsPerPage: int)
    requires 1 <= currentPage <= totalPages
    requires Render(currentPage, totalPages, totalItems, itemsPerPage).Some?
    ensures var v := Render(currentPage, totalPages, totalItems, itemsPerPage).value;
      && (!v.previousDisabled ==> 1 <= PreviousTarget(currentPage) <= totalPages)
      && (!v.nextDisabled ==> 1 <= NextTarget(currentPage) <= totalPages)
      && (forall i :: 0 <= i < |v.buttons| ==>
            (v.buttons[i].disabled <==> HandlePageClick(v.buttons[i].item).None?))
      && (forall i :: 0 <= i < |v.buttons| && !v.buttons[i].disabled ==>
            1 <= HandlePageClick(v.buttons[i].item).value <= totalPages)
  {
    if totalPages > MaxVisiblePages {
      LargePageCountWindow(currentPage, totalPages);
    }
  }

  /** Exactly one button of a rendered pager is highlighted, and it is the current page's. */
  lemma ExactlyOneActiveButton(currentPage: int, totalPages: int, totalItems: int, itemsPerPage: int)
    requires 1 <= currentPage <= totalPages
    requires Render(currentPage, totalPages, totalItems, itemsPerPage).Some?
    ensures var v := Render(currentPage, totalPages, totalItems, itemsPerPage).value;
      && (exists i :: 0 <= i < |v.buttons| && v.buttons[i].style == Active)
      && (forall i :: 0 <= i < |v.buttons| && v.buttons[i].style == Active ==>
            v.buttons[i].item == Number(currentPage))
      && (forall i, j :: (0 <= i < |v.buttons| && 0 <= j < |v.buttons| &&
            v.buttons[i].style == Active && v.buttons[j].style == Active) ==> i == j)
  {
    var v := Render(currentPage, totalPages, totalItems, itemsPerPage).value;
    var items := PageNumbers(currentPage, totalPages);
    if totalPages > MaxVisiblePages {
      LargePageCountWindow(currentPage, totalPages);
    } else {
      SmallPageCountListsEveryPage(currentPage, totalPages);
      assert items[currentPage - 1] == Number(currentPage);
    }
    var k :| 0 <= k < |items| && items[k] == Number(currentPage);
    assert v.buttons[k].style == Active;
  }
}
