# Book viewer state and geometry, in Dafny

This project models the state rules of the single-page PDF book viewer in `assets/app.js`.
The viewer shows a PDF either as a page-flip book or as a vertical scroll of pages.
It keeps the current page, mode and crop preset in the page URL.
It renders pages lazily into per-page slots, each marked `data-rendered` once drawn.

The model has these parts:

- **`JsNumber`**: the global `parseInt` of ECMA-262 (section 19.2.5), called without a radix.
  It skips white space, takes one sign and honours a `0x` prefix, then reads the longest digit prefix.
  NaN is `None`.
  It also models `Number::toString` on integral values, which is how the page number reaches the URL.
- **`CropPresets`**: the crop record and the `updateCropFromPreset` table.
- **`UrlState`**: `loadState` and `updateURL` as functions between the query string
  (a map from parameter name to value) and the persisted fields (page, mode, crop).
- **`Navigation`**: the prev/next buttons, the page-number box and the zoom buttons.
  Zoom counts quarters: every reachable zoom of the source is `q / 4` with `q` in [2, 12].
- **`Geometry`**: viewport scaling and crop arithmetic on exact reals.
- **`Slots`**: the `data-rendered` flags of one mode's slots as a sequence of booleans.
  It also has the flip-mode working set and the loop that builds fresh slots.
- **`Viewer`**: the global `state` object as the class `ViewerState`, with one method per handler that changes it.
  The flip slots and the scroll slots are two `array<bool>` fields.
  The methods are specified against the `Slots` and `UrlState` functions.
- **`Scenario`**: a client that opens a book from a URL, renders, zooms and scrolls.
  Its assertions follow from the contracts alone.

The rendering engine, the page-flip widget and the browser are outside the model.
The natural size of page 1 and the set of pages whose render fails are parameters.
The widget is represented by the page index it reports (`flipIndex`).
A visibility event in scroll mode is a call of `RenderScrollPage`.

In these places the code does less than its comments and names suggest; the model follows the code:

- `state.renderedPages` (app.js:19) is cleared by `resetRender` but never added to.
  The only render cache is each slot's `data-rendered` flag, so the set is not a field of the model.
- `createPageCanvas` computes `cropR` and `cropB` but nothing uses them.
  The caller is left to size a container to `W - L - R` by `H - T - B`.
  `VisibleWindow` is that container; `WindowIsCroppedViewport` shows it equals the cropped viewport.
- The `custom` preset, and any other name outside the table, leaves the crop record untouched.
  On page load, the URL's `crop` value still becomes `preset` first (app.js:99-101).
  The margins then stay as they were.
- A mode switch rebuilds only the slots of the mode being entered.
  Entering scroll mode destroys the page-flip widget (app.js:160), which holds the flip slots.
  The model keeps the flip slots and the widget's index as they were, because nothing reads them in scroll mode.
- `updateViewMode` starts `initFlipMode`/`initScrollMode`, whose work waits for page 1.
  So `updateURL` writes the URL before the slots are rebuilt.
  `UpdateViewMode` performs the two steps in that order.
- In flip mode, prev/next and the page-number box only ask the widget to turn.
  `currentPage` changes when the widget reports a `flip` event (`OnFlip`).

## Model

| member | source | states |
|---|---|---|
| JsNumber.TrimStart | assets/app.js:90 | parseInt's first step drops exactly the leading StrWhiteSpace characters: the result is a suffix, starts with a non-space, and every dropped character is white space |
| JsNumber.DigitPrefix | assets/app.js:90 | the digits parseInt reads are the longest prefix made only of radix digits |
| JsNumber.ParseIntOfNumberToString | assets/app.js:105-111 | the page number `updateURL` writes with `String(n)` is read back by `parseInt` as `n`, for every integer |
| JsNumber.ParseIntIgnoresLeadingWhiteSpace | assets/app.js:90 | leading white space never changes what `parseInt` returns |
| JsNumber.ParseIntIgnoresTrailingText | assets/app.js:90 | text after the digits is ignored: a numeral followed by a non-digit reads as the numeral (not `0x...` for zero) |
| JsNumber.ParseInt | assets/app.js:90 | `parseInt(string)` without a radix; what it reads is stated by the `ParseInt...` lemmas below |
| JsNumber.NumberToString | assets/app.js:107 | `String(n)` of an integral page number, as plain decimal; `ParseIntOfNumberToString` reads it back |
| JsNumber.ParseIntOfNonDigit | assets/app.js:90 | text that starts with neither white space, a sign nor a decimal digit, and the empty string, give NaN |
| JsNumber.ParseIntRejectsNonNumeric | assets/app.js:90 | after any leading white space, text whose first character is neither a sign nor a decimal digit gives NaN, the empty rest included |
| JsNumber.ParseIntReadsHexPrefix | assets/app.js:90 | a `0x` or `0X` prefix switches to hexadecimal: for every non-empty run of hex digits followed by a non-digit, the result is the digits' radix-16 value |
| JsNumber.ParseIntOfMinus | assets/app.js:90 | a leading `-` negates the value of the rest, and NaN stays NaN |
| CropPresets.PresetMargin | assets/app.js:547-550 | the uniform margin of each named preset; `PresetTable` states the table |
| CropPresets.UpdateCropFromPreset | assets/app.js:546-552 | a known preset gives a uniform crop with that name and the table's margin; any other name leaves the crop unchanged; valid margins and consistency with the preset are kept |
| CropPresets.PresetTable | assets/app.js:546-552 | the table is exactly none 0, light 2, medium 4, strong 6, and `custom` changes nothing |
| CropPresets.PresetsAreValid | assets/app.js:546-552 | every preset leaves l + r < 100 and t + b < 100 |
| CropPresets.UpdateCropIdempotent | assets/app.js:546-552 | applying a preset name twice equals applying it once |
| CropPresets.ConsistentIsFixedPoint | assets/app.js:546-552 | a crop that matches its own preset is unchanged by re-applying that preset |
| CropPresets.InitialCropIsValid | assets/app.js:18 | the initial medium crop has valid margins and matches its preset |
| UrlState.ModeParam | assets/app.js:94-95 | a mode is read exactly when the parameter is `flip` or `scroll`, and it is the mode of that name |
| UrlState.LoadState | assets/app.js:86-103 | `loadState` as a function of the query and the prior page, mode and crop; `LoadStateReads` states what it decodes |
| UrlState.SaveState | assets/app.js:105-111 | `updateURL` as a function of the prior query and the current page, mode and crop; `SaveStateKeys` and `SaveStatePage` state what it writes |
| UrlState.LoadStateReads | assets/app.js:86-103 | the page is replaced only by a parsed value of at least 1, and always by one; the mode only by a named mode; a non-empty crop always sets the preset, with table margins only for a known preset; crop invariants are kept |
| UrlState.SaveStateKeys | assets/app.js:105-111 | `updateURL` sets `page`, `mode` and `crop`, keeps every other parameter, and writes the mode name and the preset |
| UrlState.SaveStatePage | assets/app.js:107 | the written `page` value parses back to the current page |
| UrlState.UrlRoundTrip | assets/app.js:86-111 | writing a state with page at least 1 and a known, consistent preset, then loading it on a fresh start, gives back exactly that state |
| UrlState.UrlRoundTripUnknownPreset | assets/app.js:97-101 | an unknown preset name survives the round trip while the margins stay the prior ones |
| UrlState.NonPositivePageNotRestored | assets/app.js:90-91 | a page below 1 in the URL is ignored on load |
| UrlState.LoadStateIdempotent | assets/app.js:86-103 | loading the same URL twice is loading it once |
| UrlState.UrlExample | assets/app.js:105-111 | page 18 in scroll mode with the medium crop writes `page=18`, `mode=scroll`, `crop=medium` and reads back unchanged |
| Navigation.PrevPage | assets/app.js:476-482 | scroll-mode previous is at least 1, moves down by at most one, moves exactly when the page is at least 2, and goes to page 1 from below it |
| Navigation.NextPage | assets/app.js:484-489 | scroll-mode next is at most `totalPages`, moves up by at most one, moves exactly when below the last page, and goes to the last page from beyond it |
| Navigation.ClampPage | assets/app.js:491-494 | the page box's value ends in [1, totalPages] for a non-empty book, is kept when already inside, and goes to the nearer end otherwise |
| Navigation.PrevNextInverse | assets/app.js:476-489 | inside the book, next undoes previous and previous undoes next, away from the ends |
| Navigation.ClampPageIdempotent | assets/app.js:491-494 | clamping a clamped page changes nothing |
| Navigation.ZoomIn | assets/app.js:505-506 | the new zoom is `min(3.0, zoom + 0.25)` and stays in [0.5, 3.0] |
| Navigation.ZoomOut | assets/app.js:516-517 | the new zoom is `max(0.5, zoom - 0.25)` and stays in [0.5, 3.0] |
| Navigation.ZoomInThenOut | assets/app.js:505-519 | from any zoom up to 2.75, zoom in then out returns to it |
| Navigation.ZoomOutThenIn | assets/app.js:505-519 | from any zoom down to 0.75, zoom out then in returns to it |
| Geometry.CroppedSize | assets/app.js:181-182 | with valid margins and a positive viewport, the cropped size is positive and no larger than the viewport |
| Geometry.Shrink | assets/app.js:181-182 | a positive side scaled by a kept fraction in (0, 1] stays positive and no longer than the side |
| Geometry.FlipPageSize | assets/app.js:178-182 | the flip widget's page size, page 1 cropped at scale 1, is positive for a real page and valid margins |
| Geometry.PlaceholderSize | assets/app.js:293-295 | every scroll placeholder, page 1 cropped at `baseScale`, is positive for a real page and valid margins |
| Geometry.CreatePageCanvas | assets/app.js:423-461 | the canvas at `baseScale * zoom` and its margin offsets; `WindowIsCroppedViewport` and `CanvasCropInside` state its layout |
| Geometry.TextLayerOffset | assets/app.js:410-415 | the text layer's left and top shift for a canvas and a crop; `TextLayerAlignsWithCanvas` relates it to the canvas |
| Geometry.WindowIsCroppedViewport | assets/app.js:424-461 | the `W - L - R` by `H - T - B` window of a canvas is the cropped viewport at `baseScale * zoom` |
| Geometry.CanvasCropInside | assets/app.js:451-461 | the visible window is non-empty; the offsets are non-negative; offset plus visible extent is `W - W * r / 100`, inside the canvas, and the same for height |
| Geometry.PlaceholderMatchesUnitZoom | assets/app.js:293-295 | at zoom 1 a placeholder has the size of the rendered page's visible window |
| Geometry.FlipPageScalesToWindow | assets/app.js:178-182 | the flip page size scaled by `baseScale * zoom` is the canvas's visible window |
| Geometry.TextLayerAlignsWithCanvas | assets/app.js:410-415 | the text layer's shift is the negated left and top margins of its canvas; both are computed from the same viewport and crop, so this is an agreement of definitions rather than a geometric fact |
| Slots.RenderedPages | assets/app.js:267-281 | only pages that have a slot can be flagged |
| Slots.MarkRendered | assets/app.js:267-281 | marking pages keeps the slot count and flags exactly the earlier pages plus the marked pages that have a slot |
| Slots.RenderedPagesDetermineFlags | assets/app.js:267-281 | two slot lists of the same length with the same flagged pages are equal |
| Slots.MarkRenderedCompose | assets/app.js:259-264 | rendering one set of pages and then another equals rendering their union |
| Slots.MarkRenderedOne | assets/app.js:274-277 | a successful render of one page sets that slot's flag and no other |
| Slots.MarkRenderedNothing | assets/app.js:278-280 | rendering nothing changes no flag |
| Slots.MarkRenderedAlreadySet | assets/app.js:268-269 | rendering a page whose slot is already flagged, or that has no slot, changes no flag |
| Slots.FreshSlotsRendered | assets/app.js:202-212 | fresh slots carry no flag, and after rendering a set of pages exactly those with a slot are flagged |
| Slots.FlipRange | assets/app.js:255-257 | the four 0-based indices visited, in the source's order: current, next, previous, the one after next |
| Slots.FlipWorkingSet | assets/app.js:255-261 | the 1-based pages of `FlipRange` that lie in [1, totalPages]; `FlipWorkingSetIsWindow` states it as a window |
| Slots.FlipWorkingSetIsWindow | assets/app.js:255-264 | the pages requested for index `i` are exactly `i .. i + 3` within [1, totalPages], that is `currentPage - 1 .. currentPage + 2` |
| Slots.FlipWorkingSetBounds | assets/app.js:255-264 | at most four pages are requested, and the current page is among them whenever it exists |
| Slots.FlipWorkingSetInside | assets/app.js:255-264 | away from both ends of the book, all four pages `i .. i + 3` are requested |
| Slots.FlipWorkingSetExample | assets/app.js:255-264 | in a 350-page book, index 17 requests pages 17 to 20 |
| Slots.RequestedPagesAll | assets/app.js:259-264 | the four visits of the `forEach` together request exactly the working set |
| Slots.MarkRequestedStep | assets/app.js:259-264 | one visit adds its page, when inside the book and not failing, to what the earlier visits rendered |
| Slots.NewSlots | assets/app.js:202-212 | the slot-building loop gives a fresh array of one unrendered slot per page, in page order |
| Viewer.ViewerState.constructor | assets/app.js:12-23 | page 1, zoom 1.0, flip mode, medium crop, no pages and no slots |
| Viewer.ViewerState.LoadState | assets/app.js:86-103 | page, mode and crop become what `loadState` decodes from the URL; the viewer invariant is kept |
| Viewer.ViewerState.UpdateURL | assets/app.js:105-111 | the URL becomes the earlier URL with the current page, mode and preset written in |
| Viewer.ViewerState.RenderFlipPage | assets/app.js:267-281 | the engine is asked exactly when the slot exists and is unflagged; when the awaited `getPage` and canvas set-up resolve, that one flag is set; when they fail, every flag stays as it was |
| Viewer.ViewerState.RenderScrollPage | assets/app.js:359-418 | the page is fetched exactly when its slot is unflagged; when the awaited `getPage`, canvas set-up and `getTextContent` resolve, that one flag is set, and otherwise none changes |
| Viewer.ViewerState.RenderVisibleFlipPages | assets/app.js:247-265 | the flip slots become the earlier flags plus the working set's non-failing pages; no other slot changes |
| Viewer.ViewerState.OnFlip | assets/app.js:234-241 | a `flip` event with index `i` sets the current page to `i + 1`, writes the URL and renders the working set around `i` |
| Viewer.ViewerState.InitFlipMode | assets/app.js:168-245 | a fresh set of unrendered flip slots, the widget at the current page (index 0 for page 1), its page size cropped at scale 1, then the working set rendered |
| Viewer.ViewerState.InitScrollMode | assets/app.js:286-342 | a fresh set of unrendered scroll slots, each placeholder cropped at `baseScale` |
| Viewer.ViewerState.UpdateViewMode | assets/app.js:143-164 | the active mode is rebuilt from scratch, the other mode's slots are untouched, and the URL is written |
| Viewer.ViewerState.ResetRender | assets/app.js:521-526 | a reset rebuilds every slot of the current mode unrendered (flip: then the working set) with that mode's page size for the current crop, leaves the other mode's slots and sizes unchanged, and writes the URL |
| Viewer.ViewerState.SetMode | assets/app.js:534-539 | a mode button sets the mode and rebuilds that mode from scratch with its page size; the other mode's slots and sizes are unchanged |
| Viewer.ViewerState.ZoomInClicked | assets/app.js:505-514 | zoom in by a quarter up to 3.0, then a full reset of the current mode with its page size; the other mode is unchanged |
| Viewer.ViewerState.ZoomOutClicked | assets/app.js:516-519 | zoom out by a quarter down to 0.5, then a full reset of the current mode with its page size; the other mode is unchanged |
| Viewer.ViewerState.CropPresetChanged | assets/app.js:541-544 | the preset table is applied to the crop, then a full reset: the current mode's page size is recomputed for the new crop and its slots rebuilt; the other mode is unchanged |
| Viewer.ViewerState.PrevClicked | assets/app.js:476-482 | scroll mode moves to `max(1, page - 1)`; flip mode leaves the page to the widget |
| Viewer.ViewerState.NextClicked | assets/app.js:484-489 | scroll mode moves to `min(totalPages, page + 1)`; flip mode leaves the page to the widget |
| Viewer.ViewerState.PageInputChanged | assets/app.js:491-503 | the parsed value is clamped to [1, totalPages]; flip mode turns the widget to it, scroll mode makes it the current page |
| Viewer.ViewerState.Start | assets/app.js:64-84 | `init`: the URL state is loaded, the page count is taken from the document, the chosen mode is built with its page size while the other mode is unchanged, and the URL written back |
| Scenario.OpenBook | assets/app.js:64-84 | a fresh viewer started on a URL naming a page, a mode and the medium crop is at that page and mode with zoom 1.0, and that mode's slots are freshly built |

## Left out

- The pdf.js calls (`getDocument`, `getPage`, `render`, `getTextContent`, `renderTextLayer`) and the loading progress (app.js:115-138): these are a foreign library and I/O. The natural page size and render failure are inputs.
- The failure path of `loadPDF` (app.js:73-78): after the catch, `init` still calls `updateViewMode` (app.js:83). With no document, that call clears the mode's container and then fails on the missing `pdfDoc`, so the URL is not written. In flip mode it clears the book and fails at app.js:170-177; in scroll mode it clears `#scroll-content` (app.js:287) and fails at app.js:292. `Start` models only the path on which the document loads.
- Viewer.ViewerState.Start: `init` calls `setupEventListeners()` (app.js:72), which app.js does not define. The model assumes a definition elsewhere that changes none of the modelled state. Without one, the call throws and neither `loadPDF` nor `updateViewMode` runs.
- Viewer.ViewerState.OnFlip and Viewer.ViewerState.PageInputChanged: `flipIndex` stands for what the widget's `getCurrentPageIndex()` reports. The model assumes every `turnToPage` lands on the index asked for, even an index outside the book. It also assumes `flipPrev`/`flipNext` leave the index until the widget reports a `flip` event. So a URL page above `totalPages` gives an empty working set, and an empty book asks for index -1.
- The PageFlip widget (`loadFromHTML`, `turnToPage`, `flipNext`/`flipPrev`, `destroy`): it is a foreign UI component. Only the index it reports is modelled, as `flipIndex`.
- The `if (!state.pageFlip) return;` guard of `renderVisibleFlipPages`: the model only renders flip pages once the widget exists.
- `IntersectionObserver`, the `setTimeout` scroll-into-view and the scroll listener (app.js:298-340): these are asynchronous browser callbacks. A visibility report is a direct call of `RenderScrollPage`.
- Interleaving of in-flight asynchronous renders with a rebuild: each render is modelled as one atomic step. So the guard's race, a render finishing into a torn-down slot, is not modelled.
- DOM construction, CSS strings, the mode-button highlighting, and the settings and sidebar toggles: these are pure UI.
- `handleScrollUpdate` and `renderThumbnails`: their bodies do nothing.
- IEEE floating-point rounding in the geometry: sizes are exact reals, and margins are the integer percentages the table stores.
- Percent-decoding of the query string, and repeated parameters: the query is the map `URLSearchParams.get` sees, holding the first value of each name.
- JsNumber.NumberToString: writes plain decimal only. It does not model the exponent form that `Number::toString` uses at 1e21 and above. `loadState` puts no upper bound on the page, so such a page is reachable from the URL: `?page=1000000000000000000000` is written back as `1e+21`, which the next load reads as page 1.
- JsNumber.ParseInt: returns the exact integer of the digits. The source rounds it to the nearest double, so digit strings above 2^53 read differently (`parseInt("9007199254740993")` is 9007199254740992).
- UrlState.UrlRoundTrip and JsNumber.ParseIntOfNumberToString: they hold for the exact, plain-decimal model above. In the source the page is a double. The round trip fails for pages of 1e21 and above. Above 2^53, most integers cannot be a page at all.
- Viewer.ViewerState.PageInputChanged: requires a value that `parseInt` reads as a number. For NaN, the source hands NaN to the widget or to `currentPage`, which has no specified meaning.
- Viewer.ViewerState.RenderFlipPage and Viewer.ViewerState.RenderScrollPage: `ok` means that the awaited steps resolved: `getPage` (app.js:272, 362), the canvas set-up, and in scroll mode `getTextContent` (app.js:398). `page.render` (app.js:438-441) and `renderTextLayer` (app.js:399-404) are not awaited. So a page whose drawing fails still has its slot flagged (app.js:277, 417), and it is not drawn again until a reset. The model does not represent that failed drawing.
- Viewer.ViewerState.RenderScrollPage: requires that the reported slot exists. The observer only reports slots it was given.
- Viewer.ViewerState.PrevClicked and Viewer.ViewerState.NextClicked: in flip mode they state only that the page is unchanged. What the widget then reports arrives as an `OnFlip` call.
