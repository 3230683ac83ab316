/** The pagination control of app/components/Pagination.tsx. */
module Pagination {
  import opened Wrappers

  /**
   * One page button: its number (the text it shows), whether it is highlighted as the current
   * page, and the page its click handler passes to `onPageChange`.
   */
  datatype Button = Button(number: nat, highlighted: bool, onClickPage: nat)

  /**
   * The control: nothing when there is at most one page, else one button per
   * page, labelled 1 to `totalPages` in order.
   */
  function Render(totalPages: nat, currentPage: int): (r: Option<seq<Button>>)
    ensures r.None? <==> totalPages <= 1
    ensures r.Some? ==> |r.value| == totalPages
    ensures r.Some? ==> forall i :: 0 <= i < |r.value| ==>
      r.value[i].number == i + 1 && r.value[i].onClickPage == r.value[i].number
    ensures r.Some? ==> forall i :: 0 <= i < |r.value| ==>
      (r.value[i].highlighted <==> r.value[i].number == currentPage)
  {
    if totalPages <= 1 then None
    else Some(seq(totalPages, i requires 0 <= i < totalPages => Button(i + 1, currentPage == i + 1, i + 1)))
  }

  /**
   * At most one button is highlighted, none when the current page is outside
   * 1..`totalPages`, and every click asks for a page in 1..`totalPages`.
   */
  lemma HighlightAndClicks(totalPages: nat, currentPage: int)
    ensures var r := Render(totalPages, currentPage);
      r.Some? ==>
        && (forall i, j :: 0 <= i < j < |r.value| ==> !(r.value[i].highlighted && r.value[j].highlighted))
        && (currentPage < 1 || currentPage > totalPages ==>
              forall i :: 0 <= i < |r.value| ==> !r.value[i].highlighted)
        && (forall i :: 0 <= i < |r.value| ==> 1 <= r.value[i].onClickPage <= totalPages)
  {
  }
}
