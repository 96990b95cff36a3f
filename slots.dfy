/**
 * Page slots and their `data-rendered` flags.  A mode keeps one slot per page; slot `k`
 * (0-based) holds page `k + 1`.  The flag is the viewer's only render cache: once set, a
 * render request for that slot does nothing until the slots are rebuilt.
 */
module Slots {

  /** The flags of `n` freshly built slots. */
  function Unrendered(n: nat): seq<bool> {
    seq(n, _ => false)
  }

  /** The pages of `pages` that have a slot among `n` slots. */
  function WithSlot(pages: set<int>, n: nat): set<int> {
    set p | p in pages && 1 <= p <= n
  }

  /** The pages whose slot carries the flag. */
  function RenderedPages(s: seq<bool>): (r: set<int>)
    ensures forall p :: p in r ==> 1 <= p <= |s|
  {
    set k | 0 <= k < |s| && s[k] :: k + 1
  }

  /** The flags after every page of `pages` that has a slot was rendered successfully. */
  function MarkRendered(s: seq<bool>, pages: set<int>): (r: seq<bool>)
    ensures |r| == |s|
    ensures RenderedPages(r) == RenderedPages(s) + WithSlot(pages, |s|)
  {
    var r := seq(|s|, k requires 0 <= k < |s| => s[k] || k + 1 in pages);
    assert forall p :: p in RenderedPages(r) <==> p in RenderedPages(s) + WithSlot(pages, |s|) by {
      forall p
        ensures p in RenderedPages(r) <==> p in RenderedPages(s) + WithSlot(pages, |s|)
      {
        if 1 <= p <= |s| {
          assert r[p - 1] == (s[p - 1] || p in pages);
        }
      }
    }
    r
  }

  /** Flags are determined by the set of rendered pages. */
  lemma {:induction false} RenderedPagesDetermineFlags(s: seq<bool>, t: seq<bool>)
    requires |s| == |t| && RenderedPages(s) == RenderedPages(t)
    ensures s == t
  {
    forall k | 0 <= k < |s|
      ensures s[k] == t[k]
    {
      assert s[k] <==> k + 1 in RenderedPages(s);
      assert t[k] <==> k + 1 in RenderedPages(t);
    }
  }

  /** Rendering `a` and then `b` leaves the same flags as rendering both at once. */
  lemma MarkRenderedCompose(s: seq<bool>, a: set<int>, b: set<int>)
    ensures MarkRendered(MarkRendered(s, a), b) == MarkRendered(s, a + b)
  {
    RenderedPagesDetermineFlags(MarkRendered(MarkRendered(s, a), b), MarkRendered(s, a + b));
  }

  /** A successful render of one page sets that page's flag and no other. */
  lemma MarkRenderedOne(s: seq<bool>, p: int)
    requires 1 <= p <= |s|
    ensures MarkRendered(s, {p}) == s[p - 1 := true]
  {
    var r := MarkRendered(s, {p});
    forall k | 0 <= k < |s|
      ensures r[k] == s[p - 1 := true][k]
    {
      assert r[k] <==> k + 1 in RenderedPages(r);
      assert s[k] <==> k + 1 in RenderedPages(s);
    }
  }

  /** Rendering nothing changes nothing. */
  lemma MarkRenderedNothing(s: seq<bool>)
    ensures MarkRendered(s, {}) == s
  {
    RenderedPagesDetermineFlags(MarkRendered(s, {}), s);
  }

  /**
   * Rendering a page whose slot is already flagged, or that has no slot, changes no flag:
   * the guard's no-op and the real render agree.
   */
  lemma MarkRenderedAlreadySet(s: seq<bool>, p: int)
    requires 1 <= p <= |s| ==> s[p - 1]
    ensures MarkRendered(s, {p}) == s
  {
    RenderedPagesDetermineFlags(MarkRendered(s, {p}), s);
  }

  /** On freshly built slots, exactly the rendered pages that have a slot carry the flag. */
  lemma FreshSlotsRendered(n: nat, pages: set<int>)
    ensures RenderedPages(Unrendered(n)) == {}
    ensures RenderedPages(MarkRendered(Unrendered(n), pages)) == WithSlot(pages, n)
  {
    assert forall p :: p !in RenderedPages(Unrendered(n)) by {
      forall p
        ensures p !in RenderedPages(Unrendered(n))
      {
        if 1 <= p <= n {
          assert !Unrendered(n)[p - 1];
        }
      }
    }
  }

  /** The 0-based indices `renderVisibleFlipPages` visits, in its order. */
  function FlipRange(i: int): seq<int> {
    [i, i + 1, i - 1, i + 2]
  }

  /** The pages `renderVisibleFlipPages` requests for widget index `i`: `idx + 1` within [1, total]. */
  function FlipWorkingSet(i: int, total: int): set<int> {
    set idx | idx in FlipRange(i) && 1 <= idx + 1 <= total :: idx + 1
  }

  /**
   * The working set is the window of four pages starting at the 0-based index, that is
   * `currentPage - 1 .. currentPage + 2`, cut to the document.
   */
  lemma FlipWorkingSetIsWindow(i: int, total: int)
    ensures forall p :: p in FlipWorkingSet(i, total) <==> i <= p <= i + 3 && 1 <= p <= total
  {
    forall p
      ensures p in FlipWorkingSet(i, total) <==> i <= p <= i + 3 && 1 <= p <= total
    {
      if i <= p <= i + 3 && 1 <= p <= total {
        assert p - 1 in FlipRange(i);
      }
    }
  }

  /** It holds at most four pages, and the current page whenever that page exists. */
  lemma FlipWorkingSetBounds(i: int, total: int)
    ensures |FlipWorkingSet(i, total)| <= 4
    ensures 0 <= i < total ==> i + 1 in FlipWorkingSet(i, total)
  {
    FlipWorkingSetIsWindow(i, total);
    assert FlipWorkingSet(i, total) <= {i, i + 1, i + 2, i + 3};
    SubsetCard(FlipWorkingSet(i, total), {i, i + 1, i + 2, i + 3});
    assert |{i, i + 1, i + 2, i + 3}| <= 4;
  }

  lemma SubsetCard(a: set<int>, b: set<int>)
    requires a <= b
    ensures |a| <= |b|
  {
    assert b == a + (b - a);
  }

  /** Away from both ends of the document the working set is four whole pages. */
  lemma FlipWorkingSetInside(i: int, total: int)
    requires 1 <= i && i + 3 <= total
    ensures FlipWorkingSet(i, total) == {i, i + 1, i + 2, i + 3}
  {
    FlipWorkingSetIsWindow(i, total);
    forall p
      ensures p in FlipWorkingSet(i, total) <==> p in {i, i + 1, i + 2, i + 3}
    {
      assert p in {i, i + 1, i + 2, i + 3} <==> i <= p <= i + 3;
    }
  }

  /** In a 350-page book, flipping to index 17 (page 18) requests pages 17 to 20. */
  lemma FlipWorkingSetExample()
    ensures FlipWorkingSet(17, 350) == {17, 18, 19, 20}
  {
    FlipWorkingSetInside(17, 350);
  }

  /** The pages requested by the first `k` visits of `renderVisibleFlipPages`. */
  function RequestedPages(range: seq<int>, k: nat, total: int): set<int>
    requires k <= |range|
  {
    set j | 0 <= j < k && 1 <= range[j] + 1 <= total :: range[j] + 1
  }

  /** One more visit adds its page when that page is inside the document. */
  lemma RequestedPagesStep(range: seq<int>, k: nat, total: int)
    requires k < |range|
    ensures RequestedPages(range, k + 1, total)
         == RequestedPages(range, k, total) + (if 1 <= range[k] + 1 <= total then {range[k] + 1} else {})
  {
  }

  /**
   * One visit of the loop in `renderVisibleFlipPages`: a page inside the document that does
   * not fail is rendered on top of what the earlier visits rendered; any other visit adds nothing.
   */
  lemma MarkRequestedStep(before: seq<bool>, range: seq<int>, k: nat, total: int, failing: set<int>)
    requires k < |range|
    ensures var p := range[k] + 1;
      var done := MarkRendered(before, RequestedPages(range, k, total) - failing);
      MarkRendered(before, RequestedPages(range, k + 1, total) - failing)
      == if 1 <= p <= total && p !in failing then MarkRendered(done, {p}) else done
  {
    var p := range[k] + 1;
    RequestedPagesStep(range, k, total);
    if 1 <= p <= total && p !in failing {
      MarkRenderedCompose(before, RequestedPages(range, k, total) - failing, {p});
      assert RequestedPages(range, k + 1, total) - failing == (RequestedPages(range, k, total) - failing) + {p};
    } else {
      assert RequestedPages(range, k + 1, total) - failing == RequestedPages(range, k, total) - failing;
    }
  }

  /** After all four visits the requested pages are the working set. */
  lemma RequestedPagesAll(i: int, total: int)
    ensures RequestedPages(FlipRange(i), 4, total) == FlipWorkingSet(i, total)
  {
    var range := FlipRange(i);
    FlipWorkingSetIsWindow(i, total);
    forall p
      ensures p in RequestedPages(range, 4, total) <==> p in FlipWorkingSet(i, total)
    {
      if i <= p <= i + 3 && 1 <= p <= total {
        var j := if p == i then 2 else if p == i + 1 then 0 else if p == i + 2 then 1 else 3;
        assert range[j] + 1 == p;
      }
      if p in RequestedPages(range, 4, total) {
        var j :| 0 <= j < 4 && 1 <= range[j] + 1 <= total && p == range[j] + 1;
        assert i <= p <= i + 3;
      }
    }
  }

  /** The loops that build one placeholder per page, pages 1 to `n`, none of them rendered. */
  method NewSlots(n: nat) returns (a: array<bool>)
    ensures fresh(a)
    ensures a[..] == Unrendered(n)
  {
    a := new bool[n];
    for i := 1 to n + 1
      invariant forall k :: 0 <= k < i - 1 ==> !a[k]
    {
      a[i - 1] := false;
    }
  }
}
