/**
 * The viewer's global `state` object and the handlers that change it (assets/app.js).
 * Rendering engine calls, the page-flip widget and DOM construction are outside the model:
 * the natural size of page 1 and which page renders fail are parameters, the widget is
 * represented by the page index it reports, and each mode's slots are an array of
 * `data-rendered` flags.
 */
module Viewer {
  import opened Wrappers
  import opened JsNumber
  import opened CropPresets
  import opened Geometry
  import opened Navigation
  import opened UrlState
  import opened Slots

  class ViewerState {
    var currentPage: int
    var totalPages: nat
    /** `state.zoom` times 4. */
    var zoomQuarters: int
    var mode: Mode
    var crop: Crop
    /** The query string of `window.location`. */
    var query: Query
    /** What the flip widget's `getCurrentPageIndex()` reports (0-based). */
    var flipIndex: int
    /** The page width and height the flip widget was created with. */
    var flipPageSize: Size
    /** The estimated width and height of every scroll placeholder. */
    var placeholderSize: Size
    /** `data-rendered` of the flip slots `#flip-page-N`, page N at index N - 1. */
    var flipSlots: array<bool>
    /** `data-rendered` of the scroll slots `.scroll-page`, page N at index N - 1. */
    var scrollSlots: array<bool>

    /** Zoom within [0.5, 3.0], a crop that leaves part of the page visible and matches its preset. */
    ghost predicate Valid()
      reads this`zoomQuarters, this`crop, this`flipSlots, this`scrollSlots
    {
      ZoomInRange(zoomQuarters) && MarginsValid(crop) && Consistent(crop) && flipSlots != scrollSlots
    }

    /**
     * The flip book as `initFlipMode` leaves it: the widget at the current page and, of the
     * freshly built slots, exactly the working set's successful renders flagged.
     */
    ghost predicate FlipBookRebuilt(failing: set<int>)
      reads this`flipIndex, this`currentPage, this`totalPages, this`flipSlots, flipSlots
    {
      && flipIndex == (if currentPage > 1 then currentPage - 1 else 0)
      && flipSlots[..] == MarkRendered(Unrendered(totalPages), FlipWorkingSet(flipIndex, totalPages) - failing)
    }

    /** The placeholders as `initScrollMode` leaves them: one per page, none rendered. */
    ghost predicate ScrollRebuilt()
      reads this`totalPages, this`scrollSlots, scrollSlots
    {
      scrollSlots[..] == Unrendered(totalPages)
    }

    /** The fields that `updateURL` writes. */
    function Snapshot(): Persisted
      reads this`currentPage, this`mode, this`crop
    {
      Persisted(currentPage, mode, crop)
    }

    /** The initial `state`: page 1, zoom 1.0, flip mode, medium crop, no document and no slots yet. */
    constructor (location: Query)
      ensures Valid()
      ensures currentPage == 1 && totalPages == 0 && zoomQuarters == InitialZoomQuarters
      ensures mode == Flip && crop == InitialCrop && query == location
      ensures flipSlots[..] == [] && scrollSlots[..] == []
    {
      currentPage := 1;
      totalPages := 0;
      zoomQuarters := InitialZoomQuarters;
      mode := Flip;
      crop := InitialCrop;
      query := location;
      flipIndex := 0;
      flipPageSize := Size(0.0, 0.0);
      placeholderSize := Size(0.0, 0.0);
      flipSlots := new bool[0];
      scrollSlots := new bool[0];
    }

    /** `loadState`: page, mode and crop are read from the URL. */
    method LoadState()
      requires Valid()
      modifies this`currentPage, this`mode, this`crop
      ensures Valid()
      ensures Snapshot() == UrlState.LoadState(query, old(Snapshot()))
    {
      var s := UrlState.LoadState(query, Snapshot());
      LoadStateReads(query, Snapshot());
      currentPage, mode, crop := s.page, s.mode, s.crop;
    }

    /** `updateURL`: page, mode and preset are written into the URL. */
    method UpdateURL()
      modifies this`query
      ensures query == SaveState(old(query), Snapshot())
    {
      query := SaveState(query, Snapshot());
    }

    /**
     * `renderFlipPage`: a missing slot or a slot already flagged is left alone and the
     * engine is not asked (`drew` is false).  Otherwise the page is fetched and its canvas
     * set up; when those awaited steps resolve (`ok`) the flag of that one slot is set.  The
     * drawing itself is not awaited, so a draw that fails later still leaves the flag set.
     */
    method RenderFlipPage(pageNum: int, ok: bool) returns (drew: bool)
      modifies flipSlots
      ensures drew == (1 <= pageNum <= flipSlots.Length && !old(flipSlots[pageNum - 1]))
      ensures flipSlots[..] == if drew && ok then MarkRendered(old(flipSlots[..]), {pageNum}) else old(flipSlots[..])
    {
      if !(1 <= pageNum <= flipSlots.Length) || flipSlots[pageNum - 1] {
        return false;
      }
      drew := true;
      if ok {
        ghost var before := flipSlots[..];
        flipSlots[pageNum - 1] := true;
        MarkRenderedOne(before, pageNum);
      }
    }

    /**
     * `renderScrollPage` for a slot the visibility observer reports: a flagged slot is left
     * alone; otherwise the page is fetched, its canvas set up and its text content fetched,
     * and when those awaited steps resolve (`ok`) the flag is set.  Neither the canvas nor the
     * text layer drawing is awaited.
     */
    method RenderScrollPage(pageNum: int, ok: bool) returns (drew: bool)
      requires 1 <= pageNum <= scrollSlots.Length
      modifies scrollSlots
      ensures drew == !old(scrollSlots[pageNum - 1])
      ensures scrollSlots[..] == if drew && ok then MarkRendered(old(scrollSlots[..]), {pageNum}) else old(scrollSlots[..])
    {
      if scrollSlots[pageNum - 1] {
        return false;
      }
      drew := true;
      if ok {
        ghost var before := scrollSlots[..];
        scrollSlots[pageNum - 1] := true;
        MarkRenderedOne(before, pageNum);
      }
    }

    /**
     * `renderVisibleFlipPages`: the pages around the widget's index are rendered; every page of
     * the working set that has a slot and does not fail ends up flagged, and no other slot changes.
     */
    method RenderVisibleFlipPages(failing: set<int>)
      modifies flipSlots
      ensures flipSlots[..] == MarkRendered(old(flipSlots[..]), FlipWorkingSet(flipIndex, totalPages) - failing)
    {
      var range := FlipRange(flipIndex);
      ghost var before := flipSlots[..];
      MarkRenderedNothing(before);
      for k := 0 to 4
        invariant flipSlots[..] == MarkRendered(before, RequestedPages(range, k, totalPages) - failing)
      {
        var pageNum := range[k] + 1;
        MarkRequestedStep(before, range, k, totalPages, failing);
        if 1 <= pageNum <= totalPages {
          ghost var mid := flipSlots[..];
          var drew := RenderFlipPage(pageNum, pageNum !in failing);
          if !drew {
            MarkRenderedAlreadySet(mid, pageNum);
          }
        }
      }
      RequestedPagesAll(flipIndex, totalPages);
    }

    /**
     * The widget's `flip` event with 0-based index `i`: the current page becomes `i + 1`, the
     * URL is updated and the working set around `i` is rendered.
     */
    method OnFlip(i: int, failing: set<int>)
      modifies this`currentPage, this`flipIndex, this`query, flipSlots
      ensures currentPage == i + 1 && flipIndex == i
      ensures 0 <= i < totalPages ==> 1 <= currentPage <= totalPages
      ensures query == SaveState(old(query), Snapshot())
      ensures flipSlots[..] == MarkRendered(old(flipSlots[..]), FlipWorkingSet(i, totalPages) - failing)
    {
      flipIndex := i;
      currentPage := i + 1;
      UpdateURL();
      RenderVisibleFlipPages(failing);
    }

    /**
     * `initFlipMode` once page 1 has reported its natural size: a widget page of the cropped
     * size at scale 1, one unrendered slot per page, the widget turned to the current page,
     * then the working set rendered.
     */
    method InitFlipMode(natural: Size, failing: set<int>)
      requires Valid()
      modifies this`flipPageSize, this`flipSlots, this`flipIndex
      ensures Valid()
      ensures flipPageSize == FlipPageSize(natural, crop)
      ensures Positive(natural) ==> Positive(flipPageSize)
      ensures fresh(flipSlots) && FlipBookRebuilt(failing)
    {
      flipPageSize := FlipPageSize(natural, crop);
      flipSlots := NewSlots(totalPages);
      flipIndex := if currentPage > 1 then currentPage - 1 else 0;
      RenderVisibleFlipPages(failing);
    }

    /**
     * `initScrollMode` once page 1 has reported its natural size: one unrendered placeholder
     * per page, each of the cropped size at the base scale.
     */
    method InitScrollMode(natural: Size)
      requires Valid()
      modifies this`placeholderSize, this`scrollSlots
      ensures Valid()
      ensures placeholderSize == PlaceholderSize(natural, crop)
      ensures Positive(natural) ==> Positive(placeholderSize)
      ensures fresh(scrollSlots) && ScrollRebuilt()
    {
      placeholderSize := PlaceholderSize(natural, crop);
      scrollSlots := NewSlots(totalPages);
    }

    /** `updateViewMode`: the active mode is initialised from scratch, then the URL is updated. */
    method UpdateViewMode(natural: Size, failing: set<int>)
      requires Valid()
      modifies this`flipPageSize, this`flipSlots, this`flipIndex, this`placeholderSize, this`scrollSlots, this`query
      ensures Valid()
      ensures mode == Flip ==>
        && flipPageSize == FlipPageSize(natural, crop)
        && fresh(flipSlots) && FlipBookRebuilt(failing)
        && scrollSlots == old(scrollSlots) && placeholderSize == old(placeholderSize)
      ensures mode == Scroll ==>
        && placeholderSize == PlaceholderSize(natural, crop)
        && fresh(scrollSlots) && ScrollRebuilt()
        && flipSlots == old(flipSlots) && flipPageSize == old(flipPageSize) && flipIndex == old(flipIndex)
      ensures query == SaveState(old(query), Snapshot())
    {
      // The slots are built once page 1 has been fetched, after `updateURL` has run.
      UpdateURL();
      if mode == Flip {
        InitFlipMode(natural, failing);
      } else {
        InitScrollMode(natural);
      }
    }

    /** `resetRender`: the (always empty) page set is cleared and the current mode re-initialised. */
    method ResetRender(natural: Size, failing: set<int>)
      requires Valid()
      modifies this`flipPageSize, this`flipSlots, this`flipIndex, this`placeholderSize, this`scrollSlots, this`query
      ensures Valid()
      ensures mode == Flip ==>
        && flipPageSize == FlipPageSize(natural, crop)
        && fresh(flipSlots) && FlipBookRebuilt(failing)
        && scrollSlots == old(scrollSlots) && placeholderSize == old(placeholderSize)
      ensures mode == Scroll ==>
        && placeholderSize == PlaceholderSize(natural, crop)
        && fresh(scrollSlots) && ScrollRebuilt()
        && flipSlots == old(flipSlots) && flipPageSize == old(flipPageSize) && flipIndex == old(flipIndex)
      ensures query == SaveState(old(query), Snapshot())
    {
      UpdateViewMode(natural, failing);
    }

    /** A mode button: the mode is switched and the new mode built from scratch. */
    method SetMode(m: Mode, natural: Size, failing: set<int>)
      requires Valid()
      modifies this`mode, this`flipPageSize, this`flipSlots, this`flipIndex, this`placeholderSize, this`scrollSlots, this`query
      ensures Valid() && mode == m
      ensures m == Flip ==>
        && flipPageSize == FlipPageSize(natural, crop)
        && fresh(flipSlots) && FlipBookRebuilt(failing)
        && scrollSlots == old(scrollSlots) && placeholderSize == old(placeholderSize)
      ensures m == Scroll ==>
        && placeholderSize == PlaceholderSize(natural, crop)
        && fresh(scrollSlots) && ScrollRebuilt()
        && flipSlots == old(flipSlots) && flipPageSize == old(flipPageSize) && flipIndex == old(flipIndex)
            ensures query == SaveState(old(query), Snapshot())
    {
      mode := m;
      UpdateViewMode(natural, failing);
    }

    /** The zoom-in button: one quarter up to at most 3.0, then a full reset. */
    method ZoomInClicked(natural: Size, failing: set<int>)
      requires Valid()
      modifies this`zoomQuarters, this`flipPageSize, this`flipSlots, this`flipIndex, this`placeholderSize, this`scrollSlots, this`query
      ensures Valid()
      ensures zoomQuarters == ZoomIn(old(zoomQuarters))
      ensures mode == Flip ==>
        && flipPageSize == FlipPageSize(natural, crop)
        && fresh(flipSlots) && FlipBookRebuilt(failing)
        && scrollSlots == old(scrollSlots) && placeholderSize == old(placeholderSize)
      ensures mode == Scroll ==>
        && placeholderSize == PlaceholderSize(natural, crop)
        && fresh(scrollSlots) && ScrollRebuilt()
        && flipSlots == old(flipSlots) && flipPageSize == old(flipPageSize) && flipIndex == old(flipIndex)
      ensures query == SaveState(old(query), Snapshot())
    {
      zoomQuarters := ZoomIn(zoomQuarters);
      ResetRender(natural, failing);
    }

    /** The zoom-out button: one quarter down to at least 0.5, then a full reset. */
    method ZoomOutClicked(natural: Size, failing: set<int>)
      requires Valid()
      modifies this`zoomQuarters, this`flipPageSize, this`flipSlots, this`flipIndex, this`placeholderSize, this`scrollSlots, this`query
      ensures Valid()
      ensures zoomQuarters == ZoomOut(old(zoomQuarters))
      ensures mode == Flip ==>
        && flipPageSize == FlipPageSize(natural, crop)
        && fresh(flipSlots) && FlipBookRebuilt(failing)
        && scrollSlots == old(scrollSlots) && placeholderSize == old(placeholderSize)
      ensures mode == Scroll ==>
        && placeholderSize == PlaceholderSize(natural, crop)
        && fresh(scrollSlots) && ScrollRebuilt()
        && flipSlots == old(flipSlots) && flipPageSize == old(flipPageSize) && flipIndex == old(flipIndex)
      ensures query == SaveState(old(query), Snapshot())
    {
      zoomQuarters := ZoomOut(zoomQuarters);
      ResetRender(natural, failing);
    }

    /** The crop-preset selector: the preset table is applied, then a full reset. */
    method CropPresetChanged(name: string, natural: Size, failing: set<int>)
      requires Valid()
      modifies this`crop, this`flipPageSize, this`flipSlots, this`flipIndex, this`placeholderSize, this`scrollSlots, this`query
      ensures Valid()
      ensures crop == UpdateCropFromPreset(old(crop), name)
      ensures mode == Flip ==>
        && flipPageSize == FlipPageSize(natural, crop)
        && fresh(flipSlots) && FlipBookRebuilt(failing)
        && scrollSlots == old(scrollSlots) && placeholderSize == old(placeholderSize)
      ensures mode == Scroll ==>
        && placeholderSize == PlaceholderSize(natural, crop)
        && fresh(scrollSlots) && ScrollRebuilt()
        && flipSlots == old(flipSlots) && flipPageSize == old(flipPageSize) && flipIndex == old(flipIndex)
      ensures query == SaveState(old(query), Snapshot())
    {
      crop := UpdateCropFromPreset(crop, name);
      ResetRender(natural, failing);
    }

    /**
     * The previous-page button.  In flip mode it only asks the widget to turn back; the widget's
     * `flip` event (`OnFlip`) then moves the page.  In scroll mode the page moves down by one, not below 1.
     */
    method PrevClicked()
      modifies this`currentPage
      ensures mode == Flip ==> currentPage == old(currentPage)
      ensures mode == Scroll ==> currentPage == PrevPage(old(currentPage))
    {
      if mode == Scroll {
        currentPage := PrevPage(currentPage);
      }
    }

    /** The next-page button: as `PrevClicked`, upwards, not above `totalPages`. */
    method NextClicked()
      modifies this`currentPage
      ensures mode == Flip ==> currentPage == old(currentPage)
      ensures mode == Scroll ==> currentPage == NextPage(old(currentPage), totalPages)
    {
      if mode == Scroll {
        currentPage := NextPage(currentPage, totalPages);
      }
    }

    /**
     * The page-number box, for a value `parseInt` reads as a number: the number is clamped to
     * the document, then the widget is turned to it (flip) or it becomes the current page (scroll).
     */
    method PageInputChanged(input: string)
      requires ParseInt(input).Some?
      modifies this`currentPage, this`flipIndex
      ensures mode == Flip ==> flipIndex == ClampPage(ParseInt(input).value, totalPages) - 1 && currentPage == old(currentPage)
      ensures mode == Scroll ==> currentPage == ClampPage(ParseInt(input).value, totalPages) && flipIndex == old(flipIndex)
    {
      var p := ClampPage(ParseInt(input).value, totalPages);
      if mode == Flip {
        flipIndex := p - 1;
      } else {
        currentPage := p;
      }
    }

    /**
     * `init`: the URL state is loaded, the document reports its page count, and the chosen
     * mode is built and written back into the URL.
     */
    method Start(numPages: nat, natural: Size, failing: set<int>)
      requires Valid()
      modifies this
      ensures Valid()
      ensures Snapshot() == UrlState.LoadState(old(query), old(Snapshot()))
      ensures totalPages == numPages && zoomQuarters == old(zoomQuarters)
      ensures mode == Flip ==>
        && flipPageSize == FlipPageSize(natural, crop)
        && fresh(flipSlots) && FlipBookRebuilt(failing)
        && scrollSlots == old(scrollSlots) && placeholderSize == old(placeholderSize)
      ensures mode == Scroll ==>
        && placeholderSize == PlaceholderSize(natural, crop)
        && fresh(scrollSlots) && ScrollRebuilt()
        && flipSlots == old(flipSlots) && flipPageSize == old(flipPageSize) && flipIndex == old(flipIndex)
      ensures query == SaveState(old(query), Snapshot())
    {
      LoadState();
      totalPages := numPages;
      UpdateViewMode(natural, failing);
    }
  }
}
