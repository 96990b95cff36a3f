/**
 * The crop record of the viewer and the preset table that fills it
 * (`updateCropFromPreset` in assets/app.js).  Margins are percentages of the
 * rendered page trimmed from the top, right, bottom and left edges.
 */
module CropPresets {
  import opened Wrappers

  datatype Crop = Crop(preset: string, t: int, r: int, b: int, l: int)

  /** The crop the viewer starts with: the `medium` preset. */
  const InitialCrop: Crop := Crop("medium", 4, 4, 4, 4)

  /** The uniform margin a preset name stands for; `None` for any other name, `custom` included. */
  function PresetMargin(name: string): Option<int> {
    if name == "none" then Some(0)
    else if name == "light" then Some(2)
    else if name == "medium" then Some(4)
    else if name == "strong" then Some(6)
    else None
  }

  predicate IsPreset(name: string) {
    PresetMargin(name).Some?
  }

  /** Margins that leave a non-empty part of the page visible in both directions. */
  predicate MarginsValid(c: Crop) {
    0 <= c.t && 0 <= c.r && 0 <= c.b && 0 <= c.l && c.l + c.r < 100 && c.t + c.b < 100
  }

  predicate Uniform(c: Crop) {
    c.t == c.r == c.b == c.l
  }

  /**
   * A crop whose preset is a known name carries exactly that preset's margins.  A crop
   * whose preset is not in the table (a name read from the URL) may carry any margins.
   */
  predicate Consistent(c: Crop) {
    IsPreset(c.preset) ==> Uniform(c) && Some(c.l) == PresetMargin(c.preset)
  }

  /**
   * `updateCropFromPreset(val)`: a known preset name replaces the whole record by the
   * preset's uniform margins under that name; any other name leaves the crop untouched.
   */
  function UpdateCropFromPreset(c: Crop, name: string): (r: Crop)
    ensures IsPreset(name) ==> r.preset == name && Uniform(r) && Some(r.t) == PresetMargin(name)
    ensures !IsPreset(name) ==> r == c
    ensures MarginsValid(c) ==> MarginsValid(r)
    ensures Consistent(c) ==> Consistent(r)
  {
    match PresetMargin(name)
    case Some(m) => Crop(name, m, m, m, m)
    case None => c
  }

  /** The table is exactly none 0, light 2, medium 4, strong 6. */
  lemma PresetTable(c: Crop)
    ensures UpdateCropFromPreset(c, "none") == Crop("none", 0, 0, 0, 0)
    ensures UpdateCropFromPreset(c, "light") == Crop("light", 2, 2, 2, 2)
    ensures UpdateCropFromPreset(c, "medium") == Crop("medium", 4, 4, 4, 4)
    ensures UpdateCropFromPreset(c, "strong") == Crop("strong", 6, 6, 6, 6)
    ensures UpdateCropFromPreset(c, "custom") == c
  {
  }

  /** Every preset yields margins that keep part of the page visible. */
  lemma PresetsAreValid(c: Crop, name: string)
    requires IsPreset(name)
    ensures MarginsValid(UpdateCropFromPreset(c, name))
    ensures Consistent(UpdateCropFromPreset(c, name))
  {
  }

  /** Applying the same preset twice is the same as applying it once. */
  lemma UpdateCropIdempotent(c: Crop, name: string)
    ensures UpdateCropFromPreset(UpdateCropFromPreset(c, name), name) == UpdateCropFromPreset(c, name)
  {
  }

  /** A consistent crop is a fixed point of its own preset. */
  lemma ConsistentIsFixedPoint(c: Crop)
    requires Consistent(c)
    ensures UpdateCropFromPreset(c, c.preset) == c
  {
  }

  lemma InitialCropIsValid()
    ensures MarginsValid(InitialCrop) && Consistent(InitialCrop)
  {
  }
}
