/**
 * Page arithmetic of the match list and the pagination controls: how many
 * pages there are, which items a page shows, the "Showing x to y of n" range,
 * and the state of the list (its current page) and of the controls (the
 * text of the page-number input).
 */
module Paging {
  import opened Wrappers
  import opened JsValues

  /** `itemsPerPage` when the list is given none. */
  const DefaultItemsPerPage: nat := 4

  /** `Math.ceil(totalItems / itemsPerPage)` */
  function TotalPages(totalItems: nat, itemsPerPage: nat): (pages: nat)
    requires itemsPerPage >= 1
    ensures pages * itemsPerPage >= totalItems
    ensures pages > 0 ==> (pages - 1) * itemsPerPage < totalItems
    ensures pages == 0 <==> totalItems == 0
  {
    (totalItems + itemsPerPage - 1) / itemsPerPage
  }

  function Min(a: int, b: int): int {
    if a < b then a else b
  }

  /** `s.slice(start, end)` for 0 <= start <= end: the bounds are clamped to the length. */
  function Slice<T>(s: seq<T>, start: nat, end: nat): (r: seq<T>)
    requires start <= end
    ensures |r| <= end - start
    ensures start <= |s| ==> r == s[start..Min(end, |s|)]
    ensures start >= |s| ==> r == []
  {
    s[Min(start, |s|)..Min(end, |s|)]
  }

  /** The items page `page` (1-based) shows. */
  function PageItems<T>(items: seq<T>, page: nat, itemsPerPage: nat): (r: seq<T>)
    requires page >= 1
  {
    Slice(items, (page - 1) * itemsPerPage, (page - 1) * itemsPerPage + itemsPerPage)
  }

  /** A page holds at most `itemsPerPage` items, the ones from its start index on, in order. */
  lemma PageItemsAreARun<T>(items: seq<T>, page: nat, itemsPerPage: nat)
    requires page >= 1
    ensures var start := (page - 1) * itemsPerPage;
      var r := PageItems(items, page, itemsPerPage);
      && |r| <= itemsPerPage
      && (forall k :: 0 <= k < |r| ==> start + k < |items| && r[k] == items[start + k])
      && (start < |items| ==> |r| == Min(itemsPerPage, |items| - start))
  {
  }

  /** The pages 1 to n, one after the other. */
  function Pages<T>(items: seq<T>, itemsPerPage: nat, n: nat): seq<T> {
    if n == 0 then [] else Pages(items, itemsPerPage, n - 1) + PageItems(items, n, itemsPerPage)
  }

  lemma {:induction false} PagesArePrefix<T>(items: seq<T>, itemsPerPage: nat, n: nat)
    ensures Pages(items, itemsPerPage, n) == items[..Min(n * itemsPerPage, |items|)]
  {
    if n > 0 {
      PagesArePrefix(items, itemsPerPage, n - 1);
      var a := Min((n - 1) * itemsPerPage, |items|);
      var b := Min(n * itemsPerPage, |items|);
      assert items[..a] + items[a..b] == items[..b];
    }
  }

  /** Reading every page in turn gives back the whole list, exactly. */
  lemma AllPagesGiveBackTheList<T>(items: seq<T>, itemsPerPage: nat)
    requires itemsPerPage >= 1
    ensures Pages(items, itemsPerPage, TotalPages(|items|, itemsPerPage)) == items
  {
    PagesArePrefix(items, itemsPerPage, TotalPages(|items|, itemsPerPage));
  }

  /**
   * The list as `MatchList` shows it when given no `itemsPerPage`: a page
   * holds four cards, or all the matches when there are fewer, and the
   * controls show from the fifth match on.
   */
  lemma DefaultListPaging<T>(items: seq<T>, currentPage: nat)
    requires currentPage >= 1
    ensures var v := RenderList(items, currentPage, DefaultItemsPerPage);
      && (v.PageView? ==> |v.cards| <= 4 && (v.controls <==> |items| > 4))
      && (v.PageView? && currentPage == 1 ==> |v.cards| == Min(4, |items|))
  {
  }

  /** `(currentPage - 1) * itemsPerPage + 1`: the 1-based position of a page's first item. */
  function StartItem(page: int, itemsPerPage: nat): int {
    (page - 1) * itemsPerPage + 1
  }

  /** `Math.min(currentPage * itemsPerPage, totalItems)`: the position of a page's last item. */
  function EndItem(page: int, itemsPerPage: nat, totalItems: nat): int {
    Min(page * itemsPerPage, totalItems)
  }

  /**
   * "Showing x to y of n": y never exceeds n and, on an existing page, x..y
   * is exactly the range of the items that page shows.
   */
  lemma ShownRangeMatchesPage<T>(items: seq<T>, page: nat, itemsPerPage: nat)
    requires itemsPerPage >= 1 && 1 <= page <= TotalPages(|items|, itemsPerPage)
    ensures EndItem(page, itemsPerPage, |items|) <= |items|
    ensures 1 <= StartItem(page, itemsPerPage) <= EndItem(page, itemsPerPage, |items|)
    ensures EndItem(page, itemsPerPage, |items|) - StartItem(page, itemsPerPage) + 1 == |PageItems(items, page, itemsPerPage)|
  {
    var pages := TotalPages(|items|, itemsPerPage);
    var start := (page - 1) * itemsPerPage;
    MulMonotonic(page - 1, pages - 1, itemsPerPage);
    MulMonotonic(0, page - 1, itemsPerPage);
    MulSucc(page - 1, itemsPerPage);
    assert 0 <= start < |items|;
    assert page * itemsPerPage == start + itemsPerPage;
  }

  lemma MulSucc(a: int, c: int)
    ensures (a + 1) * c == a * c + c
  {
  }

  /** The controls are drawn only when there is more than one page. */
  predicate ControlsShown(totalPages: int) {
    totalPages > 1
  }

  /** There is more than one page exactly when the items do not fit on one. */
  lemma SeveralPagesIffOverflow(totalItems: nat, itemsPerPage: nat)
    requires itemsPerPage >= 1
    ensures ControlsShown(TotalPages(totalItems, itemsPerPage)) <==> totalItems > itemsPerPage
  {
    var pages := TotalPages(totalItems, itemsPerPage);
    MulMonotonic(1, pages as int - 1, itemsPerPage);
    MulMonotonic(pages, 1, itemsPerPage);
  }

  lemma {:induction false} MulMonotonic(a: int, b: int, c: nat)
    ensures a <= b ==> a * c <= b * c
  {
    if a <= b && c > 0 {
      MulMonotonic(a, b, c - 1);
      assert a * c == a * (c - 1) + a && b * c == b * (c - 1) + b;
    }
  }

  /** What the list draws: the empty-state message, or one page of cards with the controls below. */
  datatype ListView<T> = EmptyState | PageView(cards: seq<T>, totalPages: nat, controls: bool)

  function RenderList<T>(items: seq<T>, currentPage: nat, itemsPerPage: nat): (v: ListView<T>)
    requires currentPage >= 1 && itemsPerPage >= 1
    ensures v.EmptyState? <==> items == []
    ensures v.PageView? ==> v.cards == PageItems(items, currentPage, itemsPerPage)
    ensures v.PageView? ==> (v.controls <==> |items| > itemsPerPage)
  {
    if |items| == 0 then EmptyState
    else
      var totalPages := TotalPages(|items|, itemsPerPage);
      SeveralPagesIffOverflow(|items|, itemsPerPage);
      PageView(PageItems(items, currentPage, itemsPerPage), totalPages, ControlsShown(totalPages))
  }

  /** The list's own state: the page it shows, starting at 1. */
  class MatchListView {
    var currentPage: nat

    constructor ()
      ensures currentPage == 1
    {
      currentPage := 1;
    }

    /** `handlePageChange`: show the page the controls asked for. */
    method HandlePageChange(page: nat)
      modifies this
      ensures currentPage == page
    {
      currentPage := page;
    }

    /**
     * The effect that runs when the list changes: a page past the end goes
     * back to page 1, unless there are no pages at all.
     */
    method ResetIfPastEnd(totalItems: nat, itemsPerPage: nat)
      requires itemsPerPage >= 1
      modifies this
      ensures var totalPages := TotalPages(totalItems, itemsPerPage);
        currentPage == if old(currentPage) > totalPages && totalPages > 0 then 1 else old(currentPage)
      ensures 1 <= old(currentPage) && totalItems > 0 ==> 1 <= currentPage <= TotalPages(totalItems, itemsPerPage)
    {
      var totalPages := TotalPages(totalItems, itemsPerPage);
      if currentPage > totalPages && totalPages > 0 {
        currentPage := 1;
      }
    }
  }

  /** The controls' own state: the text of the page-number input, which holds only digits. */
  class PaginationControl {
    var inputValue: string

    predicate Valid()
      reads this
    {
      AllDigits(inputValue)
    }

    /** The input starts as the current page's number. */
    constructor (currentPage: nat)
      ensures Valid() && inputValue == NatText(currentPage)
    {
      inputValue := NatText(currentPage);
    }

    /** The effect that runs when the current page changes: the input shows its number. */
    method SyncToPage(currentPage: nat)
      modifies this
      ensures Valid() && inputValue == NatText(currentPage)
    {
      inputValue := NatText(currentPage);
    }

    /** `handlePrevious`: ask for the page before, unless this is the first. */
    method HandlePrevious(currentPage: nat) returns (request: Option<nat>)
      requires Valid()
      modifies this
      ensures Valid()
      ensures currentPage > 1 ==> request == Some(currentPage - 1) && inputValue == NatText(currentPage - 1)
      ensures currentPage <= 1 ==> request == None && inputValue == old(inputValue)
    {
      request := None;
      if currentPage > 1 {
        var newPage := currentPage - 1;
        request := Some(newPage);
        inputValue := NatText(newPage);
      }
    }

    /** `handleNext`: ask for the page after, unless this is the last. */
    method HandleNext(currentPage: nat, totalPages: nat) returns (request: Option<nat>)
      requires Valid()
      modifies this
      ensures Valid()
      ensures currentPage < totalPages ==> request == Some(currentPage + 1) && inputValue == NatText(currentPage + 1)
      ensures currentPage >= totalPages ==> request == None && inputValue == old(inputValue)
    {
      request := None;
      if currentPage < totalPages {
        var newPage := currentPage + 1;
        request := Some(newPage);
        inputValue := NatText(newPage);
      }
    }

    /** `handleInputChange`: a value made only of digits (possibly none) replaces the input; any other is refused. */
    method HandleInputChange(value: string)
      requires Valid()
      modifies this
      ensures Valid()
      ensures inputValue == if AllDigits(value) then value else old(inputValue)
    {
      if AllDigits(value) {
        inputValue := value;
      }
    }

    /**
     * `handleInputSubmit`: the typed number is requested when it names an
     * existing page other than the current one; otherwise (an empty input
     * included) the input goes back to the current page's number.
     */
    method HandleInputSubmit(currentPage: nat, totalPages: nat) returns (request: Option<nat>)
      requires Valid()
      modifies this
      ensures Valid()
      ensures request.Some? ==>
        && old(inputValue) != [] && request.value == DigitsValue(old(inputValue))
        && 1 <= request.value <= totalPages && request.value != currentPage
        && inputValue == old(inputValue)
      ensures request.None? ==>
        inputValue == NatText(currentPage)
        && (old(inputValue) == [] || !(1 <= DigitsValue(old(inputValue)) <= totalPages)
            || DigitsValue(old(inputValue)) == currentPage)
    {
      ParseIntOfDigits(inputValue);
      var pageNumber := ParseInt(inputValue);
      if pageNumber.Some? && 1 <= pageNumber.value <= totalPages && pageNumber.value != currentPage {
        request := Some(pageNumber.value);
      } else {
        request := None;
        inputValue := NatText(currentPage);
      }
    }
  }
}
