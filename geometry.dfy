/**
 * Crop and viewport arithmetic of assets/app.js, on exact reals.  A page's natural size is
 * its viewport at scale 1; `getViewport({scale})` multiplies both sides by the scale.
 */
module Geometry {
  import opened CropPresets

  /** `CONFIG.baseScale`: the canvas resolution factor applied on top of the zoom. */
  const BaseScale: real := 1.5

  datatype Size = Size(width: real, height: real)

  predicate Positive(s: Size) {
    s.width > 0.0 && s.height > 0.0
  }

  /** A margin percentage as a fraction of the side it trims. */
  function Fraction(p: int): real {
    p as real / 100.0
  }

  /** `page.getViewport({ scale })`. */
  function Viewport(natural: Size, scale: real): (v: Size)
    ensures Positive(natural) && scale > 0.0 ==> Positive(v)
  {
    Size(natural.width * scale, natural.height * scale)
  }

  /**
   * The cropped extent of a viewport, `width * (1 - (l + r) / 100)` by
   * `height * (1 - (t + b) / 100)`: what the flip widget and the scroll placeholders are sized to.
   */
  function CroppedSize(v: Size, c: Crop): (s: Size)
    ensures MarginsValid(c) && Positive(v) ==> Positive(s)
    ensures MarginsValid(c) && Positive(v) ==> s.width <= v.width
    ensures MarginsValid(c) && Positive(v) ==> s.height <= v.height
  {
    var fw := 1.0 - Fraction(c.l + c.r);
    var fh := 1.0 - Fraction(c.t + c.b);
    if MarginsValid(c) && Positive(v) then
      FractionBelowOne(c.l + c.r);
      FractionBelowOne(c.t + c.b);
      Size(Shrink(v.width, fw), Shrink(v.height, fh))
    else
      Size(Shrink(v.width, fw), Shrink(v.height, fh))
  }

  /** A length `x` scaled by the kept fraction `f` of a side. */
  function Shrink(x: real, f: real): (y: real)
    ensures x > 0.0 && 0.0 < f <= 1.0 ==> 0.0 < y <= x
  {
    if x > 0.0 && 0.0 < f <= 1.0 then
      ProductBounds(x, f);
      x * f
    else
      x * f
  }

  /** The page size handed to the flip widget: page 1 cropped at scale 1. */
  function FlipPageSize(natural: Size, c: Crop): (s: Size)
    ensures MarginsValid(c) && Positive(natural) ==> Positive(s)
  {
    CroppedSize(Viewport(natural, 1.0), c)
  }

  /** The estimated size of every scroll placeholder: page 1 cropped at the base scale. */
  function PlaceholderSize(natural: Size, c: Crop): (s: Size)
    ensures MarginsValid(c) && Positive(natural) ==> Positive(s)
  {
    CroppedSize(Viewport(natural, BaseScale), c)
  }

  /**
   * What `createPageCanvas` produces: a canvas of the full viewport at `baseScale * zoom`
   * and the four crop margins in pixels.  The canvas is shifted left by `cropL` and up by `cropT`.
   */
  datatype CanvasLayout = CanvasLayout(canvas: Size, cropL: real, cropT: real, cropR: real, cropB: real)

  function CreatePageCanvas(natural: Size, zoom: real, c: Crop): CanvasLayout {
    var v := Viewport(natural, BaseScale * zoom);
    CanvasLayout(v, v.width * Fraction(c.l), v.height * Fraction(c.t), v.width * Fraction(c.r), v.height * Fraction(c.b))
  }

  /** The part of a shifted canvas that a container of width `W - L - R` and height `H - T - B` shows. */
  function VisibleWindow(g: CanvasLayout): Size {
    Size(g.canvas.width - g.cropL - g.cropR, g.canvas.height - g.cropT - g.cropB)
  }

  /**
   * The position of the scroll-mode text layer: the negative crop offsets recomputed from the
   * viewport that `createPageCanvas` hands back.
   */
  function TextLayerOffset(g: CanvasLayout, c: Crop): (real, real) {
    (-(g.canvas.width * Fraction(c.l)), -(g.canvas.height * Fraction(c.t)))
  }

  /** A margin sum in [0, 100) leaves a fraction of the side in (0, 1]. */
  lemma FractionBelowOne(p: int)
    requires 0 <= p < 100
    ensures 0.0 < 1.0 - Fraction(p) <= 1.0
  {
    assert p as real < 100.0;
    assert Fraction(p) * 100.0 == p as real;
  }

  /** For `x > 0` and `0 < f <= 1`, `x * f` lies in `(0, x]`. */
  lemma ProductBounds(x: real, f: real)
    requires x > 0.0 && 0.0 < f <= 1.0
    ensures 0.0 < x * f <= x
  {
  }

  lemma FractionOfSum(a: int, b: int)
    ensures Fraction(a + b) == Fraction(a) + Fraction(b)
  {
  }

  /** `x * (1 - (f + g)) == x - x*f - x*g`, the step that ties the two crop formulas together. */
  lemma ScaleComplement(x: real, a: int, b: int)
    ensures x * (1.0 - Fraction(a + b)) == x - x * Fraction(a) - x * Fraction(b)
  {
    FractionOfSum(a, b);
    calc {
      x * (1.0 - Fraction(a + b));
      x * (1.0 - (Fraction(a) + Fraction(b)));
      x - x * Fraction(a) - x * Fraction(b);
    }
  }

  /**
   * The window a container of `W - L - R` would show is exactly the cropped viewport: the
   * canvas path and the placeholder path compute the same extent.
   */
  lemma WindowIsCroppedViewport(natural: Size, zoom: real, c: Crop)
    ensures VisibleWindow(CreatePageCanvas(natural, zoom, c)) == CroppedSize(Viewport(natural, BaseScale * zoom), c)
  {
    var v := Viewport(natural, BaseScale * zoom);
    ScaleComplement(v.width, c.l, c.r);
    ScaleComplement(v.height, c.t, c.b);
  }

  /**
   * With valid margins and a real page, the visible window is non-empty, the left/top offset
   * is non-negative, and offset plus visible extent ends where the right/bottom margin starts,
   * inside the canvas.
   */
  lemma CanvasCropInside(natural: Size, zoom: real, c: Crop)
    requires Positive(natural) && zoom > 0.0 && MarginsValid(c)
    ensures var g := CreatePageCanvas(natural, zoom, c);
      var w := VisibleWindow(g);
      && Positive(w)
      && 0.0 <= g.cropL && 0.0 <= g.cropT
      && g.cropL + w.width == g.canvas.width - g.canvas.width * Fraction(c.r) <= g.canvas.width
      && g.cropT + w.height == g.canvas.height - g.canvas.height * Fraction(c.b) <= g.canvas.height
  {
    var v := Viewport(natural, BaseScale * zoom);
    WindowIsCroppedViewport(natural, zoom, c);
    assert Positive(v);
    assert v.width * Fraction(c.r) >= 0.0;
    assert v.height * Fraction(c.b) >= 0.0;
  }

  /** At zoom 1 a placeholder has exactly the size of the rendered page's visible window. */
  lemma PlaceholderMatchesUnitZoom(natural: Size, c: Crop)
    ensures PlaceholderSize(natural, c) == VisibleWindow(CreatePageCanvas(natural, 1.0, c))
  {
    WindowIsCroppedViewport(natural, 1.0, c);
  }

  /** The flip page size, scaled by `baseScale * zoom`, is the canvas's visible window. */
  lemma FlipPageScalesToWindow(natural: Size, zoom: real, c: Crop)
    ensures Viewport(FlipPageSize(natural, c), BaseScale * zoom) == VisibleWindow(CreatePageCanvas(natural, zoom, c))
  {
    var k := BaseScale * zoom;
    WindowIsCroppedViewport(natural, zoom, c);
    var fw := 1.0 - Fraction(c.l + c.r);
    var fh := 1.0 - Fraction(c.t + c.b);
    ScaleAfterShrink(natural.width, fw, k);
    ScaleAfterShrink(natural.height, fh, k);
  }

  /** Scaling a side cropped at scale 1 equals cropping the scaled side. */
  lemma ScaleAfterShrink(x: real, f: real, k: real)
    ensures Shrink(x * 1.0, f) * k == Shrink(x * k, f)
  {
    assert Shrink(x * 1.0, f) == x * f;
    assert Shrink(x * k, f) == x * k * f;
    assert x * f * k == x * k * f;
  }

  /** The text layer of a scroll page sits at the same negative offset as its canvas. */
  lemma TextLayerAlignsWithCanvas(natural: Size, zoom: real, c: Crop)
    ensures var g := CreatePageCanvas(natural, zoom, c);
      TextLayerOffset(g, c) == (-g.cropL, -g.cropT)
  {
    var g := CreatePageCanvas(natural, zoom, c);
    assert g.canvas == Viewport(natural, BaseScale * zoom);
    assert g.cropL == g.canvas.width * Fraction(c.l);
    assert TextLayerOffset(g, c).0 == -g.cropL;
    assert TextLayerOffset(g, c).1 == -g.cropT;
  }
}
