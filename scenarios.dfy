/** The game's starting view worked through on the literal map: the camera
    at (3, 3) facing +y (src/main.rs:54-66) on an 80 x 24 screen. */
module Scenarios {
  import opened Numerics
  import opened World
  import opened Raycaster
  import opened Projection

  /** Straight ahead from (3, 3) the samples run up column 3 through the open
      cells of rows 3 to 6 and first stop on the border wall of row 7, at
      the 40th sample. */
  lemma {:induction false} StartingRayFirstStop()
    ensures FirstStop(3.0, 3.0, 0.0, 1.0, Level, 40)
    ensures StopValue(3.0, 3.0, 16.0, 0.0, 1.0, 40) == 4.0
  {
    forall j | 1 <= j < 40
      ensures !Stops(3.0, 3.0, 0.0, 1.0, Level, j)
    {
      var py := Along(3.0, 1.0, Dist(j));
      assert Along(3.0, 0.0, Dist(j)) == 3.0;
      assert 3.0 < py < 7.0;
      var row := py.Floor;
      assert 3 <= row <= 6;
      assert CellIndex(3.0, py) == row * 8 + 3;
      if row == 3 {
        assert Level[27] == 0;
      } else if row == 4 {
        assert Level[35] == 0;
      } else if row == 5 {
        assert Level[43] == 0;
      } else {
        assert Level[51] == 0;
      }
    }
    assert Along(3.0, 1.0, Dist(40)) == 7.0;
    assert CellIndex(3.0, 7.0) == 59;
  }

  /** The centre ray of the starting view reports a wall at distance 4. */
  lemma StartingRayDistance()
    ensures CastDistance(3.0, 3.0, 16.0, 0.0, 1.0, Level) == 4.0
  {
    StartingRayFirstStop();
    CastFirstStop(3.0, 3.0, 16.0, 0.0, 1.0, Level);
    var k :| 1 <= k <= MaxSteps + 1 && FirstStop(3.0, 3.0, 0.0, 1.0, Level, k) &&
             CastDistance(3.0, 3.0, 16.0, 0.0, 1.0, Level) == StopValue(3.0, 3.0, 16.0, 0.0, 1.0, k);
    FirstStopUnique(3.0, 3.0, 0.0, 1.0, Level, k, 40);
  }

  /** On a 24-row screen that wall spans rows 6 to 18 in light shading. With
      exact reals rows 6 and 18 lie exactly on the span's edges (ceiling 6,
      floor 18). In `f64` the fortieth sum of 0.1 is 4.000000000000002, so the
      ceiling is 6.000000000000003 and the floor 17.999999999999996, and the
      game's own span is rows 7 to 17. */
  lemma StartingRaySpan(row: nat)
    requires row < 24
    ensures RowDrawn(24, CastDistance(3.0, 3.0, 16.0, 0.0, 1.0, Level), row) <==> 6 <= row <= 18
    ensures ShadeOf(CastDistance(3.0, 3.0, 16.0, 0.0, 1.0, Level)) == Light
  {
    StartingRayDistance();
    assert Ceiling(24, 4.0) == 6.0;
  }

  /** The literal map is walled in, so from the starting position every ray,
      whatever its direction, stops on a wall closer than the render depth. */
  lemma StartingViewEnclosed(s: real, c: real)
    requires s * s + c * c == 1.0
    ensures CastDistance(3.0, 3.0, 16.0, s, c, Level) < 16.0
  {
    LevelWalledIn();
    EnclosedCameraHitsWall(3.0, 3.0, 16.0, s, c, Level);
  }

  /** The shade thresholds are inclusive upper bounds. */
  lemma ShadeBoundaries()
    ensures ShadeOf(1.0) == Solid && ShadeOf(1.0001) == Dark
    ensures ShadeOf(5.0) == Light && ShadeOf(5.0001) == Blank
  {
  }
}
