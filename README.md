# wolf3d.rs raycaster in Dafny

A Dafny model of the rendering core of `wolf3d.rs`, a terminal "Wolfenstein-style"
first-person view of an 8x8 tile map. For every screen column the game casts a ray from
the camera, marches along it in fixed steps of 0.1 until the sample point leaves the map
or lands in a wall cell, turns the distance into a vertical span of rows centred on the
middle of the screen, shades that span by distance, and finally draws the map with the
camera's cell over the top-left corner.

The model follows `src/main.rs` component by component:

- `numerics.dfy` (`Numerics`): `f64` as `real`, the constant `PI`, and Rust's saturating
  `as usize` cast (`CastUsize`).
- `world.dfy` (`World`): the `[u8; 64]` map as a 64-cell `Grid`, the literal map `Level`,
  the bounds test of the march (`OutOfMap`) and the row-major cell index (`CellIndex`).
- `camera.dfy` (`Viewer`): the mutable `Camera` class with its constructor and its four
  in-place moves, and the frame's key dispatch (`ApplyControls`).
- `raycaster.dfy` (`Raycaster`): the ray-angle formula, the marching loop as the method
  `March`, and its reference definition `CastDistance` with the lemmas that characterise it.
- `projection.dfy` (`Projection`): ceiling and floor rows, the row-membership test and the
  five-level shade.
- `frame.dfy` (`Frame`): the row loop, the overlay double loop and one whole frame, writing
  into an `array2<Cell>` that stands for the terminal screen.
- `scenarios.dfy` (`Scenarios`): the game's starting view traced on the literal map.

The sine and cosine of the platform are parameters (`sin: real -> real`,
`cos: real -> real`). The march and the frame require the Pythagorean identity
`sin(a)^2 + cos(a)^2 == 1`. That identity is what makes the march terminate: the source
loop has no bound of its own, and the model proves (`OnMapBound`) that once the first
sample is on the map, no sample past the 115th is. No fuel or iteration cap is added;
the reference function `MarchFrom` looks at no more than 115 samples, and
`MarchFromFirstStop` proves that this cut-off is never what decides the answer.

Three facts about the code shape the model:

- The loop never compares the distance with `depth`. It ends only when a sample leaves
  the 8x8 map or lands on a wall, and `depth` is only the value reported for a ray that
  left the map.
- Straight ahead from the start pose (3, 3, 0), column 3 is open in rows 3 to 6, so the
  centre ray stops on row 7 at distance 4.0 (`StartingRayDistance`).
- Only the value 1 is a wall (`IsWall`). Every other cell value is open.

## Model

| member | source | states |
|---|---|---|
| `Numerics.CastUsize` | src/main.rs:145 | `as usize` sends negatives to 0, truncates in-range values to the integer below, saturates values at or past `usize::MAX` to `usize::MAX`, and never exceeds it |
| `Numerics.DivAtMostHalf` | src/main.rs:122 | `height / distance` is non-negative, and for a positive height it is at most `height / 2` exactly when the distance is at least 2 |
| `World.OutOfMap` | src/main.rs:107 | a point passes the bounds test exactly when both its coordinates floor to a column and a row of the 8x8 map |
| `World.LevelWalledIn` | src/main.rs:54-63 | every border cell of the literal map holds 1, so the wall test is true on the whole border |
| `World.CellIndex` | src/main.rs:107-115 | for a point that passed the bounds test, `y as usize * 8 + x as usize` is below 64, and it decodes back to row `floor(y)` and column `floor(x)` |
| `Viewer.Camera.constructor` | src/main.rs:20-22 | keeps the given pose and fixes `fov = PI/3` and `depth = 16`, so `0 < fov < PI` and `depth > 0` |
| `Viewer.Camera.MoveForward` | src/main.rs:25-28 | adds `(sin angle, cos angle)` to the position; heading, fov and depth are unchanged |
| `Viewer.Camera.MoveBackward` | src/main.rs:31-34 | subtracts `(sin angle, cos angle)` from the position; heading, fov and depth are unchanged |
| `Viewer.Camera.RotateLeft` | src/main.rs:37 | the heading drops by exactly `PI/90`; position, fov and depth are unchanged |
| `Viewer.Camera.RotateRight` | src/main.rs:40 | the heading grows by exactly `PI/90`; position, fov and depth are unchanged |
| `Viewer.Camera.ApplyControls` | src/main.rs:74-80 | rotations are applied before moves, the moves use the new heading, and opposite keys cancel exactly |
| `Viewer.TurnRoundTrip` | src/main.rs:37-40 | turning left then right restores the heading exactly and changes nothing else |
| `Viewer.StepRoundTrip` | src/main.rs:25-34 | a step forward then a step back restores the position exactly and changes nothing else |
| `Raycaster.RayAngle` | src/main.rs:91 | the ray of column `col < width` lies in `[angle - fov/2, angle + fov/2)`, and column 0 is the left edge |
| `Raycaster.RayAngleIncreasing` | src/main.rs:91 | ray angles grow strictly from left to right |
| `Raycaster.CentreColumnLooksAhead` | src/main.rs:91 | on an even-width screen column `width/2` looks exactly along the heading |
| `Raycaster.MarchFrom` | src/main.rs:97-119 | marching from sample `k` gives the depth or a distance between that sample's and the 115th sample's |
| `Raycaster.CastDistance` | src/main.rs:95-122 | the reported distance is the depth or at least 0.1, so it is positive whenever the depth is and the division at line 122 is defined |
| `Raycaster.AxisBound` | src/main.rs:103-107 | two on-map samples on an axis whose direction component is at least 0.7 in size are at most 114 steps apart |
| `Raycaster.OnMapBound` | src/main.rs:97-110 | termination: for a unit direction, a ray whose first sample is on the map has no on-map sample beyond the 115th |
| `Raycaster.MarchFromFirstStop` | src/main.rs:96-119 | when no earlier sample stopped, marching from sample `k` reports the value of the first later sample that is off the map or on a wall |
| `Raycaster.CastFirstStop` | src/main.rs:96-119 | the reported distance is either the depth, for a first stop off the map, or `0.1*k` with `k >= 1` for a first stop on a wall; every earlier sample was on the map and not on a wall |
| `Raycaster.FirstStopUnique` | src/main.rs:96-119 | the first stopping sample is unique, so the ray determines the result |
| `Raycaster.DepthMeansEscape` | src/main.rs:106-117 | with depth 16 the result is the depth exactly when the ray left the map; otherwise it is the distance of the wall sample |
| `Raycaster.OpenMapEscapes` | src/main.rs:106-117 | on a map with no wall cell every ray reports the depth |
| `Raycaster.OffMapCameraEscapes` | src/main.rs:103-110 | a camera more than 0.1 off the map sees no wall: its first sample already fails the bounds test |
| `Raycaster.StepFromInner` | src/main.rs:100-107 | one step of 0.1 from a point of the inner 6x6 cells stays on the map |
| `Raycaster.OpenIsInner` | src/main.rs:107-115 | on a map walled in by 1s, an on-map sample that is not a wall lies in the inner 6x6 cells |
| `Raycaster.EnclosedCameraHitsWall` | src/main.rs:106-117 | on a map walled in by 1s a camera in an inner cell always stops on a wall sample: the reported distance is that sample's and, for a depth past every on-map distance, below the depth |
| `Raycaster.FirstStopValue` | src/main.rs:96-119 | at whichever sample the march first stops, the reference distance is the value reported there |
| `Raycaster.March` | src/main.rs:95-119 | the loop returns exactly `CastDistance` and the first-stop characterisation, with every map index below 64 and the loop shown to terminate |
| `Projection.Ceiling` | src/main.rs:122 | the wall's top row is never below the middle row, and for a positive height it is on the screen (at least 0) exactly when the wall is at least 2 away |
| `Projection.FloorLine` | src/main.rs:122-123 | the span between ceiling and floor is centred on `height/2` and is `2*height/distance` tall |
| `Projection.RowDrawn` | src/main.rs:128 | row `y` is drawn iff `ceil <= y <= floor`, that is iff it lies within `height/distance` of the middle row |
| `Projection.SpanShrinks` | src/main.rs:122-123 | a farther wall has a strictly shorter span whose top is strictly lower and stays above the middle |
| `Projection.NearWallFillsColumn` | src/main.rs:122-128 | a wall no farther than 2 fills every row of its column |
| `Projection.ShadeOf` | src/main.rs:129-134 | five shades cut at 1, 2, 3 and 5, each an inclusive upper bound, stated as one interval per shade |
| `Projection.ShadeFades` | src/main.rs:129-134 | the shade never gets denser as the distance grows |
| `Frame.OverlayMark` | src/main.rs:144-147 | the overlay glyph is `*` exactly on the camera's cell, and elsewhere `#` exactly where the wall test holds and a space otherwise |
| `Frame.OverlayMarksCameraCell` | src/main.rs:144-147 | for a camera on the map the `*` is on exactly the cell the march would index for the camera's point; every other cell is `#` iff it is a wall |
| `Frame.OffMapCameraOnEdge` | src/main.rs:145 | a camera left of the map is drawn on column 0, because the cast saturates |
| `Frame.AboveMapCameraOnEdge` | src/main.rs:145 | a camera above the map is drawn on row 0, because the cast saturates |
| `Frame.FarCameraHidden` | src/main.rs:145 | a camera past the right or bottom edge gets no `*` in the overlay |
| `Frame.Print` | src/main.rs:135 | one cell is written if it is on the screen, and nothing else changes |
| `Frame.DrawColumn` | src/main.rs:127-137 | exactly the rows of the column's span get the distance's shade; every other cell keeps its content |
| `Frame.DrawOverlay` | src/main.rs:142-150 | the top-left 8x8 cells on the screen show the overlay classification; the rest is kept |
| `Frame.RenderFrame` | src/main.rs:84-150 | from a cleared screen, each cell ends as the overlay in the corner and elsewhere as the projected, shaded span of its column's ray |
| `Frame.Tick` | src/main.rs:69-153 | one loop iteration: the controls move the camera, then the frame is what the moved camera sees |
| `Scenarios.StartingRayFirstStop` | src/main.rs:54-66 | from (3, 3) facing `+y` on the literal map, the 40th sample is the first to stop, on the wall in row 7 |
| `Scenarios.StartingRayDistance` | src/main.rs:96-119 | that centre ray reports distance 4.0 |
| `Scenarios.StartingRaySpan` | src/main.rs:122-134 | on a 24-row screen that wall covers rows 6 to 18 in light shading; rows 6 and 18 are exactly on the span's edges, so this holds for exact reals only (the `f64` span is rows 7 to 17) |
| `Scenarios.StartingViewEnclosed` | src/main.rs:54-66 | from the starting position every ray, in any direction, stops on a wall closer than the depth 16 |
| `Scenarios.ShadeBoundaries` | src/main.rs:129-134 | the shade at 1.0 is the full block, at 1.0001 dark, at 5.0 light and at 5.0001 blank |

## Left out

- Terminal I/O and frame pacing: `ConsoleEngine::init`, `wait_frame`, `clear_screen`,
  `print` and `draw` (src/main.rs:50, 84-85, 135, 148, 153). Drawing is modelled as writes
  into an `array2<Cell>`, and a frame starts from a freshly cleared grid.
- Frame.Print: assumes that a write outside the screen is dropped. The overlay can fall
  outside a screen smaller than 8x8, and the clipping of `console_engine` is not part of
  this model.
- `term_size::dimensions()` and its failure message (src/main.rs:47, 155-157). This is
  environment I/O, so width and height are parameters.
- Reading the keyboard and the Esc exit (src/main.rs:72, 75-80). The keys of one frame are
  a `Controls` value, and the loop around `Tick` is not modelled.
- IEEE-754 `f64`: rounding, NaN and infinities. Reals are exact, so the round trips hold
  only in this model. For example, the accumulated distance is exactly `0.1*k` here,
  while in `f64` it drifts. A row that sits exactly on a span's edge can therefore differ:
  after forty steps the `f64` distance is 4.000000000000002, not 4.0, so rows 6 and 18 of
  `Scenarios.StartingRaySpan` are outside the `f64` span.
- Raycaster.March: requires `raySin^2 + rayCos^2 == 1` exactly. The platform's sine and
  cosine meet this only approximately, and termination would otherwise rest on `f64`
  behaviour that is not modelled. `Frame.RenderFrame` and `Frame.Tick` carry the same
  identity for every angle.
- The real `sin`, `cos` and the exact value of `PI`. These are parameters or an exact real
  constant, and no property depends on the value of `PI`.
- The printed glyph strings. Shades and overlay marks are datatypes.
- Ninety rotations in a row (a half turn) are not stated. Only a single left-right round
  trip is proved.
