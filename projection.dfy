/** From a wall distance to the rows of one screen column and their shade
    (src/main.rs:121-134). */
module Projection {
  import opened Numerics

  /** The five glyphs of the renderer, nearest first: a full block, dark,
      medium and light shading, and a blank. */
  datatype Shade = Solid | Dark | Medium | Light | Blank

  /** Screen row where the wall starts: half the height above the horizon
      minus the wall's apparent size. */
  function Ceiling(height: nat, distance: real): (c: real)
    requires distance > 0.0
    ensures c <= height as real / 2.0
    ensures height > 0 ==> (c >= 0.0 <==> distance >= 2.0)
  {
    DivAtMostHalf(height as real, distance);
    height as real / 2.0 - height as real / distance
  }

  /** Screen row where the wall ends, mirrored from the ceiling. The span is
      centred on the middle of the screen and is `2 * height / distance` tall. */
  function FloorLine(height: nat, distance: real): (f: real)
    requires distance > 0.0
    ensures (Ceiling(height, distance) + f) / 2.0 == height as real / 2.0
    ensures f - Ceiling(height, distance) == 2.0 * (height as real / distance)
  {
    height as real - Ceiling(height, distance)
  }

  /** Row `row` belongs to the wall span: it is no further from the middle of
      the screen than `height / distance`. */
  function RowDrawn(height: nat, distance: real, row: nat): (drawn: bool)
    requires distance > 0.0
    ensures drawn <==> Abs(row as real - height as real / 2.0) <= height as real / distance
  {
    Ceiling(height, distance) <= row as real <= FloorLine(height, distance)
  }

  /** A farther wall has a strictly shorter span, whose top is strictly
      lower but stays above the middle of the screen. */
  lemma SpanShrinks(height: nat, near: real, far: real)
    requires height > 0 && 0.0 < near < far
    ensures FloorLine(height, far) - Ceiling(height, far) < FloorLine(height, near) - Ceiling(height, near)
    ensures Ceiling(height, near) < Ceiling(height, far) < height as real / 2.0
  {
    DivDecreasing(height as real, near, far);
  }

  /** A wall no farther than 2 fills its whole column. */
  lemma NearWallFillsColumn(height: nat, distance: real, row: nat)
    requires 0.0 < distance <= 2.0 && row < height
    ensures RowDrawn(height, distance, row)
  {
    DivAtLeastHalf(height as real, distance);
  }

  /** The shade step function with its four inclusive thresholds. */
  function ShadeOf(distance: real): (s: Shade)
    ensures s == Solid <==> distance <= 1.0
    ensures s == Dark <==> 1.0 < distance <= 2.0
    ensures s == Medium <==> 2.0 < distance <= 3.0
    ensures s == Light <==> 3.0 < distance <= 5.0
    ensures s == Blank <==> 5.0 < distance
  {
    if distance <= 1.0 then Solid
    else if distance <= 2.0 then Dark
    else if distance <= 3.0 then Medium
    else if distance <= 5.0 then Light
    else Blank
  }

  /** How dense a glyph is: 4 for the full block down to 0 for the blank. */
  function Density(s: Shade): nat {
    match s
    case Solid => 4
    case Dark => 3
    case Medium => 2
    case Light => 1
    case Blank => 0
  }

  /** Shading fades with distance. */
  lemma ShadeFades(near: real, far: real)
    requires near <= far
    ensures Density(ShadeOf(far)) <= Density(ShadeOf(near))
  {
  }
}
