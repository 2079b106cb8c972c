/** One frame of the game loop (src/main.rs:69-153): the key dispatch, the
    per-column render and the map overlay, writing into a character grid
    that stands for the terminal screen. */
module Frame {
  import opened Numerics
  import opened World
  import opened Viewer
  import opened Raycaster
  import opened Projection

  /** Glyphs of the map overlay: `*` for the camera, `#` for a wall and a
      space for an open cell. */
  datatype Mark = CameraMark | WallMark | OpenMark

  /** A screen cell: untouched since the screen was cleared, part of a
      shaded wall span, or part of the map overlay. */
  datatype Cell = Cleared | Shaded(shade: Shade) | Overlay(mark: Mark)

  /** Overlay glyph of map cell `(col, row)` for a camera standing in cell
      `(camCol, camRow)`: the camera wins over the map. */
  function OverlayMark(camCol: nat, camRow: nat, m: Grid, col: nat, row: nat): (k: Mark)
    requires col < Size && row < Size
    ensures k == CameraMark <==> col == camCol && row == camRow
    ensures k == WallMark <==> (col != camCol || row != camRow) && IsWall(m, row * Size + col)
    ensures k == OpenMark <==> (col != camCol || row != camRow) && !IsWall(m, row * Size + col)
  {
    if col == camCol && row == camRow then CameraMark
    else if IsWall(m, row * Size + col) then WallMark
    else OpenMark
  }

  /** For a camera on the map the `*` is drawn exactly on the map cell that
      holds the camera, the same cell the march would look up for that
      point; every other overlay cell shows the map. */
  lemma OverlayMarksCameraCell(x: real, y: real, m: Grid, col: nat, row: nat)
    requires !OutOfMap(x, y) && col < Size && row < Size
    ensures OverlayMark(CastUsize(x), CastUsize(y), m, col, row) == CameraMark <==>
            row * Size + col == CellIndex(x, y)
    ensures row * Size + col != CellIndex(x, y) ==>
            (OverlayMark(CastUsize(x), CastUsize(y), m, col, row) == WallMark <==> IsWall(m, row * Size + col))
  {
    var i := CellIndex(x, y);
    assert (row * Size + col) / Size == row && (row * Size + col) % Size == col;
  }

  /** A camera left of the map, level with one of its rows, is drawn on
      column 0 of that row, because the cast to `usize` saturates at 0. */
  lemma OffMapCameraOnEdge(x: real, y: real, m: Grid)
    requires x < 0.0 && 0.0 <= y < Size as real
    ensures OverlayMark(CastUsize(x), CastUsize(y), m, 0, y.Floor) == CameraMark
  {
  }

  /** A camera above the map, level with one of its columns, is drawn on
      row 0 of that column, for the same reason. */
  lemma AboveMapCameraOnEdge(x: real, y: real, m: Grid)
    requires y < 0.0 && 0.0 <= x < Size as real
    ensures OverlayMark(CastUsize(x), CastUsize(y), m, x.Floor, 0) == CameraMark
  {
  }

  /** A camera at or past the right or bottom edge of the map gets no `*`:
      its cast coordinate is at least `Size`, beyond every overlay cell. */
  lemma FarCameraHidden(x: real, y: real, m: Grid, col: nat, row: nat)
    requires x >= Size as real || y >= Size as real
    requires col < Size && row < Size
    ensures OverlayMark(CastUsize(x), CastUsize(y), m, col, row) != CameraMark
  {
  }

  /** Distance reported by the march for screen column `col`. */
  function ColumnDistance(x: real, y: real, angle: real, fov: real, depth: real, m: Grid,
                          sin: real -> real, cos: real -> real, width: nat, col: nat): real
    requires col < width
  {
    var a := RayAngle(angle, fov, col, width);
    CastDistance(x, y, depth, sin(a), cos(a), m)
  }

  /** The 3D view at `(col, row)`: a shaded wall cell if the row is in the
      column's span, otherwise the cleared screen. */
  function ViewCell(x: real, y: real, angle: real, fov: real, depth: real, m: Grid,
                    sin: real -> real, cos: real -> real, width: nat, height: nat, col: nat, row: nat): Cell
    requires col < width && depth > 0.0
  {
    var d := ColumnDistance(x, y, angle, fov, depth, m, sin, cos, width, col);
    if RowDrawn(height, d, row) then Shaded(ShadeOf(d)) else Cleared
  }

  /** The finished frame at `(col, row)`: the overlay over the top-left
      `Size` x `Size` corner, the 3D view elsewhere. */
  function FrameCell(x: real, y: real, angle: real, fov: real, depth: real, m: Grid,
                     sin: real -> real, cos: real -> real, width: nat, height: nat, col: nat, row: nat): Cell
    requires col < width && depth > 0.0
  {
    if col < Size && row < Size then Overlay(OverlayMark(CastUsize(x), CastUsize(y), m, col, row))
    else ViewCell(x, y, angle, fov, depth, m, sin, cos, width, height, col, row)
  }

  /** Writing one cell; a write outside the screen is dropped. */
  method Print(screen: array2<Cell>, col: nat, row: nat, c: Cell)
    modifies screen
    ensures forall i, j :: 0 <= i < screen.Length0 && 0 <= j < screen.Length1 ==>
      screen[i, j] == if i == col && j == row then c else old(screen[i, j])
  {
    if col < screen.Length0 && row < screen.Length1 {
      screen[col, row] := c;
    }
  }

  /** The row loop of one column: every row in the span gets the shade of
      the distance, every other cell keeps its content. */
  method DrawColumn(screen: array2<Cell>, col: nat, distance: real)
    requires col < screen.Length0 && distance > 0.0
    modifies screen
    ensures forall i, j :: 0 <= i < screen.Length0 && 0 <= j < screen.Length1 ==>
      screen[i, j] == if i == col && RowDrawn(screen.Length1, distance, j) then Shaded(ShadeOf(distance))
                      else old(screen[i, j])
  {
    var height := screen.Length1;
    var ceil := Ceiling(height, distance);
    var floor := FloorLine(height, distance);
    for y := 0 to height
      invariant forall i, j :: 0 <= i < screen.Length0 && 0 <= j < screen.Length1 ==>
        screen[i, j] == if i == col && j < y && RowDrawn(height, distance, j) then Shaded(ShadeOf(distance))
                        else old(screen[i, j])
    {
      if y as real >= ceil && y as real <= floor {
        var pixel := ShadeOf(distance);
        Print(screen, col, y, Shaded(pixel));
      }
    }
  }

  /** The overlay double loop: the top-left `Size` x `Size` cells (those on
      the screen) show the map and the camera, the rest is kept. */
  method DrawOverlay(screen: array2<Cell>, camCol: nat, camRow: nat, m: Grid)
    modifies screen
    ensures forall i, j :: 0 <= i < screen.Length0 && 0 <= j < screen.Length1 ==>
      screen[i, j] == if i < Size && j < Size then Overlay(OverlayMark(camCol, camRow, m, i, j))
                      else old(screen[i, j])
  {
    for x := 0 to Size
      invariant forall i, j :: 0 <= i < screen.Length0 && 0 <= j < screen.Length1 ==>
        screen[i, j] == if i < x && j < Size then Overlay(OverlayMark(camCol, camRow, m, i, j))
                        else old(screen[i, j])
    {
      for y := 0 to Size
        invariant forall i, j :: 0 <= i < screen.Length0 && 0 <= j < screen.Length1 ==>
          screen[i, j] == if (i < x && j < Size) || (i == x && j < y) then Overlay(OverlayMark(camCol, camRow, m, i, j))
                          else old(screen[i, j])
      {
        var pixel := OverlayMark(camCol, camRow, m, x, y);
        Print(screen, x, y, Overlay(pixel));
      }
    }
  }

  /** Render one frame from a cleared `width` x `height` screen. The
      platform's sine and cosine satisfy the Pythagorean identity. */
  method RenderFrame(camera: Camera, m: Grid, sin: real -> real, cos: real -> real, width: nat, height: nat)
    returns (screen: array2<Cell>)
    requires camera.Valid()
    requires forall a :: sin(a) * sin(a) + cos(a) * cos(a) == 1.0
    ensures fresh(screen) && screen.Length0 == width && screen.Length1 == height
    ensures forall i, j :: 0 <= i < width && 0 <= j < height ==>
      screen[i, j] == FrameCell(camera.x, camera.y, camera.angle, camera.fov, camera.depth, m, sin, cos, width, height, i, j)
  {
    screen := new Cell[width, height]((i, j) => Cleared);
    for x := 0 to width
      invariant forall i, j :: 0 <= i < width && 0 <= j < height ==>
        screen[i, j] == if i < x then ViewCell(camera.x, camera.y, camera.angle, camera.fov, camera.depth, m, sin, cos, width, height, i, j)
                        else Cleared
    {
      var rayAngle := RayAngle(camera.angle, camera.fov, x, width);
      var raySin, rayCos := sin(rayAngle), cos(rayAngle);
      var distance := March(camera.x, camera.y, camera.depth, raySin, rayCos, m);
      DrawColumn(screen, x, distance);
    }
    DrawOverlay(screen, CastUsize(camera.x), CastUsize(camera.y), m);
  }

  /** The body of the game loop: apply the frame's keys to the camera, then
      render the frame the moved camera sees. */
  method Tick(camera: Camera, keys: Controls, m: Grid, sin: real -> real, cos: real -> real, width: nat, height: nat)
    returns (screen: array2<Cell>)
    requires camera.Valid()
    requires forall a :: sin(a) * sin(a) + cos(a) * cos(a) == 1.0
    modifies camera
    ensures camera.Valid()
    ensures camera.angle == old(camera.angle) + (if keys.turnRight then TurnStep else 0.0)
                                              - (if keys.turnLeft then TurnStep else 0.0)
    ensures camera.x == old(camera.x) + (if keys.forward then sin(camera.angle) else 0.0)
                                      - (if keys.backward then sin(camera.angle) else 0.0)
    ensures camera.y == old(camera.y) + (if keys.forward then cos(camera.angle) else 0.0)
                                      - (if keys.backward then cos(camera.angle) else 0.0)
    ensures fresh(screen) && screen.Length0 == width && screen.Length1 == height
    ensures forall i, j :: 0 <= i < width && 0 <= j < height ==>
      screen[i, j] == FrameCell(camera.x, camera.y, camera.angle, camera.fov, camera.depth, m, sin, cos, width, height, i, j)
  {
    camera.ApplyControls(keys, sin, cos);
    screen := RenderFrame(camera, m, sin, cos, width, height);
  }
}
