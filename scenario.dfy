/**
 * A client of the viewer: a book opened from a URL that names a page and a mode with the
 * medium crop; in flip mode the pages around the current one are rendered and zooming in
 * renders them again, in scroll mode a page seen twice is drawn once.  What the assertions
 * state follows from the contracts alone.
 */
module Scenario {
  import opened CropPresets
  import opened Geometry
  import opened UrlState
  import opened Slots
  import opened Viewer

  /** A fresh viewer started on a URL such as `?page=18&mode=scroll&crop=medium`. */
  method OpenBook(pages: nat, page: int, m: Mode, natural: Size) returns (v: ViewerState)
    requires 1 <= page <= pages
    ensures fresh(v) && v.Valid()
    ensures v.currentPage == page && v.totalPages == pages && v.mode == m && v.zoomQuarters == 4
    ensures m == Flip ==> fresh(v.flipSlots) && v.FlipBookRebuilt({})
    ensures m == Scroll ==> fresh(v.scrollSlots) && v.ScrollRebuilt()
  {
    var saved := Persisted(page, m, InitialCrop);
    v := new ViewerState(SaveState(map[], saved));
    UrlRoundTrip(map[], saved, Persisted(1, Flip, InitialCrop));
    assert v.Snapshot() == Persisted(1, Flip, InitialCrop);
    v.Start(pages, natural, {});
  }

  /** Page 2 to `pages - 2` in flip mode: exactly the four pages from `page - 1` are rendered. */
  method FlipAtPage(pages: nat, page: int, natural: Size)
    requires 2 <= page <= pages - 2
  {
    var v := OpenBook(pages, page, Flip, natural);
    assert v.flipIndex == page - 1;
    FlipWorkingSetInside(page - 1, pages);
    FreshSlotsRendered(pages, {page - 1, page, page + 1, page + 2});
    assert RenderedPages(v.flipSlots[..]) == WithSlot({page - 1, page, page + 1, page + 2}, pages);
    ZoomInAtPage(v, pages, page, natural);
  }

  /** Zooming in rebuilds every slot; the same pages are rendered again, except one that fails. */
  method ZoomInAtPage(v: ViewerState, pages: nat, page: int, natural: Size)
    requires v.Valid() && v.mode == Flip && v.zoomQuarters == 4
    requires v.totalPages == pages && v.currentPage == page && 2 <= page <= pages - 2
    modifies v
  {
    v.ZoomInClicked(natural, {page + 1});
    assert v.zoomQuarters == 5 && v.flipIndex == page - 1;
    FlipWorkingSetInside(page - 1, pages);
    FreshSlotsRendered(pages, {page - 1, page, page + 1, page + 2} - {page + 1});
    assert page + 1 !in RenderedPages(v.flipSlots[..]);
    assert page in RenderedPages(v.flipSlots[..]);
  }

  /**
   * A book opened in scroll mode: every placeholder starts unrendered, the first time a page
   * is seen it is drawn, and a second sighting draws nothing.
   */
  method ScrollPageTwice(pages: nat, page: int, natural: Size)
    requires 1 <= page <= pages
  {
    var v := OpenBook(pages, page, Scroll, natural);
    assert v.scrollSlots[..] == Unrendered(pages);
    var drew := v.RenderScrollPage(page, true);
    assert drew;
    MarkRenderedOne(Unrendered(pages), page);
    assert v.scrollSlots[page - 1];
    drew := v.RenderScrollPage(page, true);
    assert !drew;
  }
}
