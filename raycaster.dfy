/** The per-column ray: its angle (src/main.rs:91) and the fixed-step march
    through the map (src/main.rs:95-119). */
module Raycaster {
  import opened Numerics
  import opened World

  /** No ray whose first sample is on the map has more than this many samples
      on the map (proved in OnMapBound). A unit direction has a component of
      size at least 0.7, so along that axis the samples of the 8-wide map are
      at most 8 / 0.07, about 114.3, steps apart (AxisBound); plus the first. */
  const MaxSteps: nat := 115

  /** The ray angle of screen column `col` of `width`: the left edge of the
      view plus the column's share of the field of view. */
  function RayAngle(angle: real, fov: real, col: nat, width: nat): (a: real)
    requires col < width
    ensures fov > 0.0 ==> angle - fov / 2.0 <= a < angle + fov / 2.0
    ensures col == 0 ==> a == angle - fov / 2.0
  {
    var share := col as real / width as real;
    ShareOf(col, width);
    FractionOf(share, fov);
    var turn := share * fov;
    assert fov > 0.0 ==> 0.0 <= turn < fov;
    (angle - fov / 2.0) + turn
  }

  /** The middle column of an even-width screen looks straight along the
      camera's heading. */
  lemma CentreColumnLooksAhead(angle: real, fov: real, width: nat)
    requires width > 0 && width % 2 == 0
    ensures RayAngle(angle, fov, width / 2, width) == angle
  {
    var w := width as real;
    assert (width / 2) as real == w / 2.0;
    assert (w / 2.0) / w == 0.5;
  }

  /** Ray angles grow strictly from left to right. */
  lemma RayAngleIncreasing(angle: real, fov: real, left: nat, right: nat, width: nat)
    requires fov > 0.0 && left < right < width
    ensures RayAngle(angle, fov, left, width) < RayAngle(angle, fov, right, width)
  {
    ShareIncreasing(left, right, width);
    ScaleStrict(left as real / width as real, right as real / width as real, fov);
  }

  /** Distance of the `k`-th sample: the march adds 0.1 before every sample. */
  function Dist(k: nat): real {
    k as real * 0.1
  }

  /** One coordinate of the point at distance `d` along a ray. */
  function Along(origin: real, dir: real, d: real): real {
    origin + dir * d
  }

  /** The `k`-th sample of the ray from `(x, y)` along `(s, c)` ends the
      march: it is off the map, or on a wall cell. */
  predicate Stops(x: real, y: real, s: real, c: real, m: Grid, k: nat) {
    var px, py := Along(x, s, Dist(k)), Along(y, c, Dist(k));
    OutOfMap(px, py) || IsWall(m, CellIndex(px, py))
  }

  /** The `k`-th sample is the first that ends the march. */
  predicate FirstStop(x: real, y: real, s: real, c: real, m: Grid, k: nat) {
    k >= 1 && Stops(x, y, s, c, m, k) && forall j :: 1 <= j < k ==> !Stops(x, y, s, c, m, j)
  }

  /** What the march reports when it ends at sample `k`: the render depth if
      the sample left the map, otherwise the sample's distance. */
  function StopValue(x: real, y: real, depth: real, s: real, c: real, k: nat): real {
    if OutOfMap(Along(x, s, Dist(k)), Along(y, c, Dist(k))) then depth else Dist(k)
  }

  /** The march from sample `k` on, examining at most `MaxSteps` samples. */
  function MarchFrom(x: real, y: real, depth: real, s: real, c: real, m: Grid, k: nat): (r: real)
    requires k >= 1
    ensures r == depth || Dist(k) <= r <= Dist(MaxSteps)
    decreases MaxSteps + 1 - k
  {
    if k > MaxSteps then depth
    else
      var px, py := Along(x, s, Dist(k)), Along(y, c, Dist(k));
      if OutOfMap(px, py) then depth
      else if IsWall(m, CellIndex(px, py)) then Dist(k)
      else MarchFrom(x, y, depth, s, c, m, k + 1)
  }

  /** Reference definition of the distance the march reports for one ray.
      It is never zero or negative when the depth is positive, so the
      projection may divide by it. */
  function CastDistance(x: real, y: real, depth: real, s: real, c: real, m: Grid): (r: real)
    ensures r == depth || Dist(1) <= r <= Dist(MaxSteps)
    ensures depth > 0.0 ==> r > 0.0
  {
    MarchFrom(x, y, depth, s, c, m, 1)
  }

  /** Along one axis whose direction component has magnitude at least 0.7,
      two on-map samples are at most 114 steps apart. */
  lemma AxisBound(origin: real, dir: real, k: nat)
    requires k >= 1 && Abs(dir) >= 0.7
    requires 0.0 <= Along(origin, dir, Dist(1)) < Size as real
    requires 0.0 <= Along(origin, dir, Dist(k)) < Size as real
    ensures k <= MaxSteps
  {
    var gap := (k - 1) as real * 0.1;
    assert Along(origin, dir, Dist(k)) - Along(origin, dir, Dist(1)) == dir * gap;
    assert Abs(dir * gap) < 8.0;
    assert Abs(dir * gap) == Abs(dir) * gap;
    assert Abs(dir) * gap >= 0.7 * gap;
    assert (k - 1) as real < 115.0;
  }

  /** Termination of the march: for a unit direction, if the first sample
      is on the map then no sample beyond `MaxSteps` is. */
  lemma OnMapBound(x: real, y: real, s: real, c: real, k: nat)
    requires s * s + c * c == 1.0 && k >= 1
    requires !OutOfMap(Along(x, s, Dist(1)), Along(y, c, Dist(1)))
    requires !OutOfMap(Along(x, s, Dist(k)), Along(y, c, Dist(k)))
    ensures k <= MaxSteps
  {
    MajorComponent(s, c);
    if Abs(s) >= 0.7 {
      AxisBound(x, s, k);
    } else {
      AxisBound(y, c, k);
    }
  }

  lemma {:induction false} MarchFromFirstStop(x: real, y: real, depth: real, s: real, c: real, m: Grid, k: nat)
    requires s * s + c * c == 1.0
    requires 1 <= k <= MaxSteps + 1
    requires forall j :: 1 <= j < k ==> !Stops(x, y, s, c, m, j)
    ensures exists j :: k <= j <= MaxSteps + 1 && FirstStop(x, y, s, c, m, j) &&
                        MarchFrom(x, y, depth, s, c, m, k) == StopValue(x, y, depth, s, c, j)
    decreases MaxSteps + 1 - k
  {
    if k > MaxSteps {
      if !OutOfMap(Along(x, s, Dist(k)), Along(y, c, Dist(k))) {
        assert !Stops(x, y, s, c, m, 1);
        OnMapBound(x, y, s, c, k);
        assert false;
      }
      assert FirstStop(x, y, s, c, m, k);
    } else if Stops(x, y, s, c, m, k) {
      assert FirstStop(x, y, s, c, m, k);
    } else {
      MarchFromFirstStop(x, y, depth, s, c, m, k + 1);
    }
  }

  /** The reference distance is what the march reports at its first
      stopping sample, and that sample comes within `MaxSteps + 1` steps. */
  lemma CastFirstStop(x: real, y: real, depth: real, s: real, c: real, m: Grid)
    requires s * s + c * c == 1.0
    ensures exists k :: 1 <= k <= MaxSteps + 1 && FirstStop(x, y, s, c, m, k) &&
                        CastDistance(x, y, depth, s, c, m) == StopValue(x, y, depth, s, c, k)
  {
    MarchFromFirstStop(x, y, depth, s, c, m, 1);
  }

  /** At most one sample is the first stopping one, so the reference value
      is determined by the ray. */
  lemma FirstStopUnique(x: real, y: real, s: real, c: real, m: Grid, k1: nat, k2: nat)
    requires FirstStop(x, y, s, c, m, k1) && FirstStop(x, y, s, c, m, k2)
    ensures k1 == k2
  {
  }

  /** With the render depth beyond every on-map distance, the reported
      distance is the depth exactly when the ray left the map, and is
      otherwise the distance of the wall sample. */
  lemma DepthMeansEscape(x: real, y: real, depth: real, s: real, c: real, m: Grid, k: nat)
    requires s * s + c * c == 1.0 && depth > Dist(MaxSteps)
    requires FirstStop(x, y, s, c, m, k)
    ensures CastDistance(x, y, depth, s, c, m) == depth <==> OutOfMap(Along(x, s, Dist(k)), Along(y, c, Dist(k)))
    ensures !OutOfMap(Along(x, s, Dist(k)), Along(y, c, Dist(k))) ==> CastDistance(x, y, depth, s, c, m) == Dist(k)
  {
    CastFirstStop(x, y, depth, s, c, m);
    var k0 :| 1 <= k0 <= MaxSteps + 1 && FirstStop(x, y, s, c, m, k0) &&
              CastDistance(x, y, depth, s, c, m) == StopValue(x, y, depth, s, c, k0);
    FirstStopUnique(x, y, s, c, m, k, k0);
    if !OutOfMap(Along(x, s, Dist(k)), Along(y, c, Dist(k))) {
      assert k > 1 ==> !Stops(x, y, s, c, m, 1);
      OnMapBound(x, y, s, c, k);
    }
  }

  /** On a map without walls every ray reports the render depth. */
  lemma OpenMapEscapes(x: real, y: real, depth: real, s: real, c: real, m: Grid)
    requires s * s + c * c == 1.0
    requires forall i :: 0 <= i < |m| ==> m[i] != 1
    ensures CastDistance(x, y, depth, s, c, m) == depth
  {
    CastFirstStop(x, y, depth, s, c, m);
  }

  /** A camera more than one step outside the map sees no wall: its first
      sample is already off the map. */
  lemma OffMapCameraEscapes(x: real, y: real, depth: real, s: real, c: real, m: Grid)
    requires s * s + c * c == 1.0
    requires x < -0.1 || y < -0.1 || x >= Size as real + 0.1 || y >= Size as real + 0.1
    ensures CastDistance(x, y, depth, s, c, m) == depth
  {
    ComponentBounded(s, c);
    ComponentBounded(c, s);
    assert OutOfMap(Along(x, s, Dist(1)), Along(y, c, Dist(1)));
  }

  /** Whatever sample is the first to stop, the reference distance is the
      value the march reports there. */
  /** From a point of the inner 6x6 cells, one step of at most 0.1 per axis
      lands on the map. */
  lemma StepFromInner(x: real, y: real, s: real, c: real, k: nat)
    requires Abs(s) <= 1.0 && Abs(c) <= 1.0
    requires 1.0 <= Along(x, s, Dist(k)) < (Size - 1) as real
    requires 1.0 <= Along(y, c, Dist(k)) < (Size - 1) as real
    ensures !OutOfMap(Along(x, s, Dist(k + 1)), Along(y, c, Dist(k + 1)))
  {
    assert Dist(k + 1) == Dist(k) + 0.1;
    assert s * Dist(k + 1) == s * Dist(k) + s * 0.1;
    assert c * Dist(k + 1) == c * Dist(k) + c * 0.1;
  }

  /** On a walled-in map an open on-map point lies in the inner 6x6 cells. */
  lemma OpenIsInner(m: Grid, px: real, py: real)
    requires WalledIn(m) && !OutOfMap(px, py) && !IsWall(m, CellIndex(px, py))
    ensures 1.0 <= px < (Size - 1) as real && 1.0 <= py < (Size - 1) as real
  {
    var i := CellIndex(px, py);
    assert !OnBorder(i);
  }

  /** On a map whose border is all wall, a camera in one of the inner cells
      always sees a wall: the march cannot step past the border, so its first
      stop is a wall sample, and with the render depth beyond every on-map
      distance the reported distance is below the depth. */
  lemma EnclosedCameraHitsWall(x: real, y: real, depth: real, s: real, c: real, m: Grid)
    requires s * s + c * c == 1.0 && WalledIn(m)
    requires 1.0 <= x < (Size - 1) as real && 1.0 <= y < (Size - 1) as real
    ensures exists k :: 1 <= k <= MaxSteps && FirstStop(x, y, s, c, m, k) &&
                        !OutOfMap(Along(x, s, Dist(k)), Along(y, c, Dist(k))) &&
                        CastDistance(x, y, depth, s, c, m) == Dist(k)
    ensures depth > Dist(MaxSteps) ==> CastDistance(x, y, depth, s, c, m) < depth
  {
    ComponentBounded(s, c);
    ComponentBounded(c, s);
    CastFirstStop(x, y, depth, s, c, m);
    var k :| 1 <= k <= MaxSteps + 1 && FirstStop(x, y, s, c, m, k) &&
             CastDistance(x, y, depth, s, c, m) == StopValue(x, y, depth, s, c, k);
    assert Along(x, s, Dist(0)) == x && Along(y, c, Dist(0)) == y;
    StepFromInner(x, y, s, c, 0);
    if k > 1 {
      assert !Stops(x, y, s, c, m, k - 1);
      OpenIsInner(m, Along(x, s, Dist(k - 1)), Along(y, c, Dist(k - 1)));
      StepFromInner(x, y, s, c, k - 1);
    }
    OnMapBound(x, y, s, c, k);
  }

  lemma FirstStopValue(x: real, y: real, depth: real, s: real, c: real, m: Grid, k: nat)
    requires s * s + c * c == 1.0
    requires FirstStop(x, y, s, c, m, k)
    ensures CastDistance(x, y, depth, s, c, m) == StopValue(x, y, depth, s, c, k)
  {
    CastFirstStop(x, y, depth, s, c, m);
    var k0 :| 1 <= k0 <= MaxSteps + 1 && FirstStop(x, y, s, c, m, k0) &&
              CastDistance(x, y, depth, s, c, m) == StopValue(x, y, depth, s, c, k0);
    FirstStopUnique(x, y, s, c, m, k, k0);
  }

  /** The march of one column. Every map access is at an index below 64
      because the bounds test has just excluded off-map points; the loop has
      no bound of its own and ends because a unit-length ray leaves the
      8x8 map within `MaxSteps + 1` samples. */
  method March(x: real, y: real, depth: real, raySin: real, rayCos: real, m: Grid) returns (distance: real)
    requires raySin * raySin + rayCos * rayCos == 1.0
    ensures exists k :: 1 <= k <= MaxSteps + 1 && FirstStop(x, y, raySin, rayCos, m, k) &&
                        distance == StopValue(x, y, depth, raySin, rayCos, k)
    ensures distance == CastDistance(x, y, depth, raySin, rayCos, m)
  {
    distance := 0.0;
    ghost var k: nat := 0;
    while true
      invariant k <= MaxSteps
      invariant distance == Dist(k)
      invariant forall j :: 1 <= j <= k ==> !Stops(x, y, raySin, rayCos, m, j)
      decreases MaxSteps - k
    {
      distance := distance + 0.1;
      k := k + 1;
      assert distance == Dist(k);
      var rayX := Along(x, raySin, distance);
      var rayY := Along(y, rayCos, distance);
      if rayX < 0.0 || rayY < 0.0 || rayX >= 8.0 || rayY >= 8.0 {
        assert FirstStop(x, y, raySin, rayCos, m, k);
        FirstStopValue(x, y, depth, raySin, rayCos, m, k);
        distance := depth;
        break;
      }
      var index := CellIndex(rayX, rayY);
      if m[index] == 1 {
        assert FirstStop(x, y, raySin, rayCos, m, k);
        FirstStopValue(x, y, depth, raySin, rayCos, m, k);
        break;
      }
      assert k > 1 ==> !Stops(x, y, raySin, rayCos, m, 1);
      OnMapBound(x, y, raySin, rayCos, k);
    }
  }
}
