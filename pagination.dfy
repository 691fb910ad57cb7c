/** The numbered page buttons shown under a paged list. */
module Pagination {
  import opened Js

  /** `Math.ceil(total / perPage)` */
  function PageCount(total: int, perPage: int): (pages: int)
    requires perPage > 0
    ensures (pages - 1) * perPage < total <= pages * perPage
    ensures total >= 0 ==> pages >= 0
  {
    CeilDiv(total, perPage)
  }

  /** One rendered button: its caption, whether it is highlighted, and the page
      its click reports. */
  datatype PageButton = PageButton(caption: int, highlighted: bool, reports: int)

  /** The buttons drawn for `page` among `total` items, or None when the
      component renders nothing. */
  function Buttons(total: int, perPage: int, page: int): (r: Option<seq<PageButton>>)
    requires perPage > 0
    ensures r.None? <==> PageCount(total, perPage) <= 1
    ensures r.Some? ==> |r.value| == PageCount(total, perPage)
    ensures r.Some? ==> forall i :: 0 <= i < |r.value| ==>
              r.value[i].caption == i + 1 && r.value[i].reports == i + 1
              && (r.value[i].highlighted <==> page == i + 1)
  {
    var pages := PageCount(total, perPage);
    if pages <= 1 then None
    else Some(seq(pages, i => PageButton(i + 1, page == i + 1, i + 1)))
  }

  /** The number of highlighted buttons. */
  function Highlighted(buttons: seq<PageButton>): (n: nat)
    ensures n <= |buttons|
  {
    if buttons == [] then 0
    else (if buttons[0].highlighted then 1 else 0) + Highlighted(buttons[1..])
  }

  /** Buttons labelled consecutively from `first`, highlighting `page`:
      exactly one is highlighted when `page` is among the labels, none
      otherwise. */
  lemma {:induction false} HighlightedRun(buttons: seq<PageButton>, first: int, page: int)
    requires forall i :: 0 <= i < |buttons| ==>
               buttons[i].caption == first + i && (buttons[i].highlighted <==> page == first + i)
    ensures first <= page < first + |buttons| ==> Highlighted(buttons) == 1
    ensures !(first <= page < first + |buttons|) ==> Highlighted(buttons) == 0
  {
    if buttons != [] {
      HighlightedRun(buttons[1..], first + 1, page);
    }
  }

  /** Exactly the button for the current page is highlighted, and none is
      when the page is out of range. */
  lemma OneHighlighted(total: int, perPage: int, page: int)
    requires perPage > 0
    requires Buttons(total, perPage, page).Some?
    ensures 1 <= page <= PageCount(total, perPage) ==> Highlighted(Buttons(total, perPage, page).value) == 1
    ensures !(1 <= page <= PageCount(total, perPage)) ==> Highlighted(Buttons(total, perPage, page).value) == 0
  {
    HighlightedRun(Buttons(total, perPage, page).value, 1, page);
  }

  /** The labels increase strictly from left to right. */
  lemma LabelsIncrease(total: int, perPage: int, page: int, i: int, j: int)
    requires perPage > 0
    requires Buttons(total, perPage, page).Some?
    requires 0 <= i < j < |Buttons(total, perPage, page).value|
    ensures Buttons(total, perPage, page).value[i].caption < Buttons(total, perPage, page).value[j].caption
  {
  }

  /** Anything rendered means more than one page, so more items than fit on one. */
  lemma RendersOnlyForSeveralPages(total: int, perPage: int, page: int)
    requires perPage > 0
    ensures Buttons(total, perPage, page).Some? <==> total > perPage
  {
    CeilDivAboveOne(total, perPage);
  }
}
