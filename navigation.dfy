/**
 * The page-navigation and zoom handlers of assets/app.js as functions of the current value.
 * Zoom is counted in quarters: the source steps by 0.25 between 0.5 and 3.0, so every
 * reachable zoom is `q / 4` for an integer `q` in [2, 12].
 */
module Navigation {

  /** Scroll-mode "previous page": `Math.max(1, currentPage - 1)`. */
  function PrevPage(c: int): (r: int)
    ensures r >= 1
    ensures c >= 1 ==> r <= c && c - r <= 1
    ensures c < 1 ==> r == 1
    ensures r == c - 1 <==> c >= 2
  {
    if 1 < c - 1 then c - 1 else 1
  }

  /** Scroll-mode "next page": `Math.min(totalPages, currentPage + 1)`. */
  function NextPage(c: int, total: int): (r: int)
    ensures r <= total
    ensures c <= total ==> c <= r && r - c <= 1
    ensures c > total ==> r == total
    ensures r == c + 1 <==> c < total
  {
    if total < c + 1 then total else c + 1
  }

  /**
   * The page-number box: the parsed value is raised to 1, then lowered to `totalPages`,
   * in that order.
   */
  function ClampPage(p: int, total: int): (r: int)
    ensures total >= 1 ==> 1 <= r <= total
    ensures 1 <= p <= total ==> r == p
    ensures p < 1 && total >= 1 ==> r == 1
    ensures p > total ==> r == total
  {
    var raised := if p < 1 then 1 else p;
    if raised > total then total else raised
  }

  /** Within a valid range, "next" undoes "previous" and vice versa, except at the ends. */
  lemma PrevNextInverse(c: int, total: int)
    requires 1 <= c <= total
    ensures 1 <= PrevPage(c) <= total && 1 <= NextPage(c, total) <= total
    ensures c >= 2 ==> NextPage(PrevPage(c), total) == c
    ensures c < total ==> PrevPage(NextPage(c, total)) == c
  {
  }

  /** Clamping twice is clamping once. */
  lemma ClampPageIdempotent(p: int, total: int)
    requires total >= 1
    ensures ClampPage(ClampPage(p, total), total) == ClampPage(p, total)
  {
  }

  const MinZoomQuarters: int := 2
  const MaxZoomQuarters: int := 12
  /** The zoom the viewer starts with, 1.0. */
  const InitialZoomQuarters: int := 4

  predicate ZoomInRange(q: int) {
    MinZoomQuarters <= q <= MaxZoomQuarters
  }

  /** The zoom factor a quarter count stands for. */
  function ZoomValue(q: int): real {
    q as real / 4.0
  }

  function RealMin(a: real, b: real): real {
    if a <= b then a else b
  }

  function RealMax(a: real, b: real): real {
    if a >= b then a else b
  }

  /** Zoom in: `Math.min(CONFIG.maxZoom, zoom + 0.25)`, one quarter up, capped at 12 quarters. */
  function ZoomIn(q: int): (r: int)
    ensures ZoomValue(r) == RealMin(3.0, ZoomValue(q) + 0.25)
    ensures ZoomInRange(q) ==> ZoomInRange(r)
  {
    if q + 1 < MaxZoomQuarters then q + 1 else MaxZoomQuarters
  }

  /** Zoom out: `Math.max(CONFIG.minZoom, zoom - 0.25)`, one quarter down, floored at 2 quarters. */
  function ZoomOut(q: int): (r: int)
    ensures ZoomValue(r) == RealMax(0.5, ZoomValue(q) - 0.25)
    ensures ZoomInRange(q) ==> ZoomInRange(r)
  {
    if q - 1 > MinZoomQuarters then q - 1 else MinZoomQuarters
  }

  /** From any zoom up to 2.75, zooming in and then out returns to the same zoom. */
  lemma ZoomInThenOut(q: int)
    requires ZoomInRange(q) && ZoomValue(q) <= 2.75
    ensures ZoomOut(ZoomIn(q)) == q
  {
  }

  /** From any zoom down to 0.75, zooming out and then in returns to the same zoom. */
  lemma ZoomOutThenIn(q: int)
    requires ZoomInRange(q) && ZoomValue(q) >= 0.75
    ensures ZoomIn(ZoomOut(q)) == q
  {
  }
}
