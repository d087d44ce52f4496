/** multi-with-glb/src/components/TVScreen.tsx: the shared virtual TV's page navigation and
    content toggle, each broadcast to the open connections. */
module TVScreen {
  import opened PoseSync

  /** The `url` of each entry of `PAGES`, in order. */
  const PageUrls: seq<string> := ["stackblitz.com/home", "stackblitz.com/features", "stackblitz.com/docs"]
  const PageCount: int := |PageUrls|

  /** JavaScript's `%`, which truncates toward zero (the result takes the sign of `a`). */
  function JsRem(a: int, n: int): (r: int)
    requires n > 0
    ensures a >= 0 ==> 0 <= r < n && r == a % n
    ensures a < 0 ==> -n < r <= 0
  {
    if a >= 0 then a % n else -((-a) % n)
  }

  datatype Direction = Prev | Next

  /** The `newPage` of `navigatePage`. */
  function Navigate(page: int, dir: Direction): (r: int)
    ensures 0 <= page < PageCount ==> 0 <= r < PageCount
    ensures 0 <= page < PageCount && dir == Next ==> r == (if page == PageCount - 1 then 0 else page + 1)
    ensures 0 <= page < PageCount && dir == Prev ==> r == (if page == 0 then PageCount - 1 else page - 1)
  {
    if dir == Next then JsRem(page + 1, PageCount) else JsRem(page - 1 + PageCount, PageCount)
  }

  /** Next and previous undo each other, and three steps in one direction go round. */
  lemma NavigateLaws(page: int)
    requires 0 <= page < PageCount
    ensures Navigate(Navigate(page, Next), Prev) == page
    ensures Navigate(Navigate(page, Prev), Next) == page
    ensures Navigate(Navigate(Navigate(page, Next), Next), Next) == page
    ensures Navigate(Navigate(Navigate(page, Prev), Prev), Prev) == page
  {
  }

  /** A page outside the range is not brought back into it by `next`: the truncating `%`
      keeps a negative sign. */
  lemma NegativePageStaysNegative()
    ensures Navigate(-5, Next) == -1
  {
  }

  class Screen {
    var showContent: bool
    var currentPage: int

    predicate Valid()
      reads this
    {
      0 <= currentPage < PageCount
    }

    constructor ()
      ensures Valid() && showContent && currentPage == 0
    {
      showContent := true;
      currentPage := 0;
    }

    /** `toggleContent` */
    method ToggleContent(links: seq<Link>) returns (out: seq<Sent>)
      requires Valid()
      modifies this
      ensures Valid()
      ensures showContent == !old(showContent) && currentPage == old(currentPage)
      ensures out == OpenSends(links, ScreenState(showContent))
    {
      var newState := !showContent;
      showContent := newState;
      out := Broadcast(links, ScreenState(newState));
    }

    /** `navigatePage` */
    method NavigatePage(dir: Direction, links: seq<Link>) returns (out: seq<Sent>)
      requires Valid()
      modifies this
      ensures Valid()
      ensures currentPage == Navigate(old(currentPage), dir) && showContent == old(showContent)
      ensures out == OpenSends(links, PageChange(currentPage))
    {
      var newPage := if dir == Next then JsRem(currentPage + 1, PageCount) else JsRem(currentPage - 1 + PageCount, PageCount);
      currentPage := newPage;
      out := Broadcast(links, PageChange(newPage));
    }
  }
}
