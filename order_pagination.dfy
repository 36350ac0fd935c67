/**
 * `OrderPagination`: previous, one button per page, next. It holds no state;
 * every click asks the parent for a page number through `onPageChange`.
 */
module OrderPagination {

  /** A rendered button: the page it requests, whether it is disabled, its variant. */
  datatype PageButton = PageButton(target: int, disabled: bool, variant: string)

  datatype PaginationView = PaginationView(prev: PageButton, pages: seq<PageButton>, next: PageButton)

  /** `Array.from({ length: totalPages }, (_, i) => i + 1)`. */
  function PageNumbers(totalPages: nat): (r: seq<int>)
    ensures |r| == totalPages
    ensures forall i :: 0 <= i < totalPages ==> r[i] == i + 1
  {
    seq(totalPages, i => i + 1)
  }

  /** The whole control for a current page and a page count. */
  function Render(currentPage: int, totalPages: nat): (v: PaginationView)
    ensures v.prev.target == currentPage - 1 && (v.prev.disabled <==> currentPage == 1)
    ensures v.next.target == currentPage + 1 && (v.next.disabled <==> currentPage == totalPages)
    ensures |v.pages| == totalPages
    ensures forall i :: 0 <= i < totalPages ==>
      v.pages[i].target == i + 1 && !v.pages[i].disabled &&
      (v.pages[i].variant == "default" <==> currentPage == i + 1) &&
      (v.pages[i].variant != "default" ==> v.pages[i].variant == "outline")
  {
    var nums := PageNumbers(totalPages);
    PaginationView(
      PageButton(currentPage - 1, currentPage == 1, "outline"),
      seq(totalPages, i requires 0 <= i < totalPages =>
        PageButton(nums[i], false, if currentPage == nums[i] then "default" else "outline")),
      PageButton(currentPage + 1, currentPage == totalPages, "outline"))
  }

  /** The page buttons run 1..totalPages in ascending order. */
  lemma PagesAscending(currentPage: int, totalPages: nat)
    ensures forall i, j :: 0 <= i < j < totalPages ==>
      Render(currentPage, totalPages).pages[i].target < Render(currentPage, totalPages).pages[j].target
  {
  }

  /** Exactly one page button is highlighted when the current page is in range, none otherwise. */
  lemma {:induction false} OneHighlighted(currentPage: int, totalPages: nat)
    ensures 1 <= currentPage <= totalPages ==>
      Render(currentPage, totalPages).pages[currentPage - 1].variant == "default"
    ensures forall i, j :: 0 <= i < j < totalPages ==>
      !(Render(currentPage, totalPages).pages[i].variant == "default" &&
        Render(currentPage, totalPages).pages[j].variant == "default")
    ensures !(1 <= currentPage <= totalPages) ==>
      forall i :: 0 <= i < totalPages ==> Render(currentPage, totalPages).pages[i].variant == "outline"
  {
    var v := Render(currentPage, totalPages);
    forall i, j | 0 <= i < j < totalPages
      ensures !(v.pages[i].variant == "default" && v.pages[j].variant == "default")
    {
      assert v.pages[i].variant == "default" ==> currentPage == i + 1;
      assert v.pages[j].variant == "default" ==> currentPage == j + 1;
    }
  }

  /** With no pages at all, "next" stays enabled on every positive page, so it can always be pressed. */
  lemma NextNeverDisabledWhenEmpty(currentPage: int)
    requires currentPage >= 1
    ensures !Render(currentPage, 0).next.disabled
    ensures Render(currentPage, 0).next.target == currentPage + 1
  {
  }
}
