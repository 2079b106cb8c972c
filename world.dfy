/** The world: a fixed 8x8 occupancy grid stored row by row (src/main.rs:52-63). */
module World {
  import opened Numerics

  /** Rust's `u8`, the element type of the map array. */
  newtype u8 = b: int | 0 <= b < 256

  /** Side length of the square map. */
  const Size: nat := 8

  /** A map of `Size * Size` cells; the value 1 is a wall, anything else is open. */
  type Grid = m: seq<u8> | |m| == Size * Size witness seq(64, _ => 0)

  /** The map literal of the game: a walled border, an inner block in column 5,
      a wall run on row 5 and two extra wall cells at (2, 1) and (1, 6). */
  const Level: Grid := var cells: seq<u8> :=
    [1, 1, 1, 1, 1, 1, 1, 1] +
    [1, 0, 1, 0, 0, 0, 0, 1] +
    [1, 0, 0, 0, 0, 1, 0, 1] +
    [1, 0, 0, 0, 0, 1, 0, 1] +
    [1, 0, 0, 0, 0, 0, 0, 1] +
    [1, 0, 0, 0, 1, 1, 1, 1] +
    [1, 1, 0, 0, 0, 0, 0, 1] +
    [1, 1, 1, 1, 1, 1, 1, 1];
  cells

  /** The bounds test of the march: a point is off the map when either
      coordinate is negative or at least `Size`. */
  function OutOfMap(px: real, py: real): (out: bool)
    ensures !out <==> 0 <= px.Floor < Size && 0 <= py.Floor < Size
  {
    px < 0.0 || py < 0.0 || px >= Size as real || py >= Size as real
  }

  /** Row-major index of the cell holding an on-map point, with both
      coordinates cast to `usize`. The bounds test alone keeps it inside the
      grid, and the index decodes back to the cell's row and column. */
  function CellIndex(px: real, py: real): (i: nat)
    requires !OutOfMap(px, py)
    ensures i < Size * Size
    ensures i / Size == py.Floor && i % Size == px.Floor
    ensures px.Floor as real <= px < px.Floor as real + 1.0
    ensures py.Floor as real <= py < py.Floor as real + 1.0
  {
    CastUsize(py) * Size + CastUsize(px)
  }

  /** The wall test of the march and of the overlay: only the value 1 is a wall. */
  predicate IsWall(m: Grid, i: nat)
    requires i < Size * Size
  {
    m[i] == 1
  }

  /** Cell `i` lies in the first or last row or column of the map. */
  predicate OnBorder(i: nat) {
    i / Size == 0 || i / Size == Size - 1 || i % Size == 0 || i % Size == Size - 1
  }

  /** Every border cell of the map is a wall. */
  predicate WalledIn(m: Grid) {
    forall i :: 0 <= i < Size * Size && OnBorder(i) ==> IsWall(m, i)
  }

  /** The literal map is walled in. */
  lemma LevelWalledIn()
    ensures WalledIn(Level)
  {
    forall j | 0 <= j < Size * Size && OnBorder(j)
      ensures IsWall(Level, j)
    {
      if j < 8 {
        assert j == 0 || j == 1 || j == 2 || j == 3 || j == 4 || j == 5 || j == 6 || j == 7;
      } else if j >= 56 {
        assert j == 56 || j == 57 || j == 58 || j == 59 || j == 60 || j == 61 || j == 62 || j == 63;
      } else if j % 8 == 0 {
        assert j == 8 || j == 16 || j == 24 || j == 32 || j == 40 || j == 48;
      } else {
        assert j == 15 || j == 23 || j == 31 || j == 39 || j == 47 || j == 55;
      }
    }
  }
}
