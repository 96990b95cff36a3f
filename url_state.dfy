/**
 * The part of the view state kept in the page URL: `loadState` reads `page`, `mode` and
 * `crop` from the query string at start-up, and `updateURL` writes them back.  The query
 * string is modelled after percent-decoding, as a map from parameter name to its first value.
 */
module UrlState {
  import opened Wrappers
  import opened JsNumber
  import opened CropPresets

  datatype Mode = Flip | Scroll

  /** The string the viewer stores in `state.mode` and in the URL. */
  function ModeName(m: Mode): string {
    match m
    case Flip => "flip"
    case Scroll => "scroll"
  }

  type Query = map<string, string>

  /** The fields `updateURL` writes out and `loadState` reads back. */
  datatype Persisted = Persisted(page: int, mode: Mode, crop: Crop)

  /**
   * `parseInt(params.get('page'))`.  A missing parameter is `null`, which parseInt reads
   * as the text "null": NaN.
   */
  function PageParam(q: Query): Option<int> {
    if "page" in q then ParseInt(q["page"]) else None
  }

  /** The mode named by the `mode` parameter, when it is exactly `flip` or `scroll`. */
  function ModeParam(q: Query): (r: Option<Mode>)
    ensures r.Some? <==> "mode" in q && (q["mode"] == "flip" || q["mode"] == "scroll")
    ensures r.Some? ==> ModeName(r.value) == q["mode"]
  {
    if "mode" in q && q["mode"] == "scroll" then Some(Scroll)
    else if "mode" in q && q["mode"] == "flip" then Some(Flip)
    else None
  }

  /** `if (c)`: the `crop` parameter is present and not the empty string. */
  predicate CropGiven(q: Query) {
    "crop" in q && q["crop"] != ""
  }

  /**
   * `loadState`: the page is taken when parseInt gives a truthy value above 0, the mode when
   * it is a known mode name; a non-empty crop name is stored as the preset and then looked up
   * in the preset table.  Everything not accepted keeps its prior value.
   */
  function LoadState(q: Query, prior: Persisted): Persisted {
    var p := PageParam(q);
    var page := if p.Some? && p.value != 0 && p.value > 0 then p.value else prior.page;
    var mode := if ModeParam(q).Some? then ModeParam(q).value else prior.mode;
    var crop :=
      if CropGiven(q) then UpdateCropFromPreset(prior.crop.(preset := q["crop"]), q["crop"])
      else prior.crop;
    Persisted(page, mode, crop)
  }

  /**
   * What `loadState` accepts: a page only when it is at least 1 and parsed from the URL, a
   * mode only when it is named in the URL, a crop preset whenever the URL gives a non-empty
   * one (with margins from the table when it is a known preset), and the crop invariants kept.
   */
  lemma LoadStateReads(q: Query, prior: Persisted)
    ensures var r := LoadState(q, prior);
      && (r.page == prior.page || r.page >= 1)
      && (r.page != prior.page ==> PageParam(q) == Some(r.page))
      && (PageParam(q).Some? && PageParam(q).value > 0 ==> r.page == PageParam(q).value)
    ensures var r := LoadState(q, prior);
      && (r.mode != prior.mode ==> "mode" in q && q["mode"] == ModeName(r.mode))
      && (ModeParam(q).Some? ==> r.mode == ModeParam(q).value)
    ensures var r := LoadState(q, prior);
      && (!CropGiven(q) ==> r.crop == prior.crop)
      && (CropGiven(q) ==> r.crop.preset == q["crop"])
      && (CropGiven(q) && !IsPreset(q["crop"]) ==> r.crop == prior.crop.(preset := q["crop"]))
      && (CropGiven(q) && IsPreset(q["crop"]) ==> Uniform(r.crop) && PresetMargin(q["crop"]) == Some(r.crop.l))
    ensures Consistent(prior.crop) ==> Consistent(LoadState(q, prior).crop)
    ensures MarginsValid(prior.crop) ==> MarginsValid(LoadState(q, prior).crop)
  {
  }

  /**
   * `updateURL`: the three parameters are set (replacing any earlier value), every other
   * parameter of the URL is kept.
   */
  function SaveState(q: Query, s: Persisted): Query {
    q["page" := NumberToString(s.page)]["mode" := ModeName(s.mode)]["crop" := s.crop.preset]
  }

  /**
   * What `updateURL` leaves in the URL: exactly the earlier parameters plus the three it sets,
   * with the others untouched.
   */
  lemma SaveStateKeys(q: Query, s: Persisted)
    ensures SaveState(q, s).Keys == q.Keys + {"page", "mode", "crop"}
    ensures forall k :: k in q && k != "page" && k != "mode" && k != "crop" ==> SaveState(q, s)[k] == q[k]
    ensures SaveState(q, s)["mode"] == ModeName(s.mode) && SaveState(q, s)["crop"] == s.crop.preset
  {
    var r1 := q["page" := NumberToString(s.page)];
    var r2 := r1["mode" := ModeName(s.mode)];
    var r := r2["crop" := s.crop.preset];
    assert r == SaveState(q, s);
    assert "crop" != "page" && "mode" != "page" by {
      assert "crop"[0] != "page"[0] && "mode"[0] != "page"[0];
    }
    assert "crop" != "mode" by {
      assert "crop"[0] != "mode"[0];
    }
    forall k | k in q && k != "page" && k != "mode" && k != "crop"
      ensures r[k] == q[k]
    {
      assert r1[k] == q[k] && r2[k] == r1[k];
    }
  }

  /** The `page` value `updateURL` writes is read back by parseInt as the page, for every page. */
  lemma SaveStatePage(q: Query, s: Persisted)
    ensures PageParam(SaveState(q, s)) == Some(s.page)
  {
    var r := SaveState(q, s);
    assert "page" in r && r["page"] == NumberToString(s.page);
    ParseIntOfNumberToString(s.page);
  }

  /**
   * Round trip: writing a state with a positive page and a known, consistent preset into any
   * URL and reading it back on a fresh load restores exactly that state, whatever the
   * defaults were.
   */
  lemma UrlRoundTrip(q: Query, s: Persisted, prior: Persisted)
    requires s.page >= 1 && IsPreset(s.crop.preset) && Consistent(s.crop)
    ensures LoadState(SaveState(q, s), prior) == s
  {
    var r := SaveState(q, s);
    SaveStateKeys(q, s);
    SaveStatePage(q, s);
    assert ModeParam(r) == Some(s.mode) by {
      match s.mode
      case Flip =>
      case Scroll =>
    }
    assert CropGiven(r);
  }

  /** A preset name the table does not know survives the round trip; the margins do not. */
  lemma UrlRoundTripUnknownPreset(q: Query, s: Persisted, prior: Persisted)
    requires s.page >= 1 && s.crop.preset != "" && !IsPreset(s.crop.preset)
    ensures LoadState(SaveState(q, s), prior) == Persisted(s.page, s.mode, prior.crop.(preset := s.crop.preset))
  {
    var r := SaveState(q, s);
    SaveStateKeys(q, s);
    SaveStatePage(q, s);
    assert ModeParam(r) == Some(s.mode) by {
      match s.mode
      case Flip =>
      case Scroll =>
    }
    assert CropGiven(r);
  }

  /** A page below 1 that reaches the URL is ignored on the next load. */
  lemma NonPositivePageNotRestored(q: Query, s: Persisted, prior: Persisted)
    requires s.page <= 0
    ensures LoadState(SaveState(q, s), prior).page == prior.page
  {
    SaveStatePage(q, s);
  }

  /** Loading the same URL twice gives the same state as loading it once. */
  lemma LoadStateIdempotent(q: Query, prior: Persisted)
    ensures LoadState(q, LoadState(q, prior)) == LoadState(q, prior)
  {
  }

  /**
   * Page 18 in scroll mode with the medium crop is written as `page=18&mode=scroll&crop=medium`
   * and read back unchanged on a fresh load.
   */
  lemma UrlExample(q: Query, prior: Persisted)
    ensures var s := Persisted(18, Scroll, Crop("medium", 4, 4, 4, 4));
      && SaveState(q, s)["page"] == "18"
      && SaveState(q, s)["mode"] == "scroll"
      && SaveState(q, s)["crop"] == "medium"
      && LoadState(SaveState(q, s), prior) == s
  {
    var s := Persisted(18, Scroll, Crop("medium", 4, 4, 4, 4));
    assert Decimal(1) == "1" && DecimalDigit(8) == '8';
    assert NumberToString(18) == "18";
    UrlRoundTrip(q, s, prior);
  }
}
