/** The player's camera (src/main.rs:6-42) and the per-frame key dispatch
    (src/main.rs:74-80). */
module Viewer {
  import opened Numerics

  /** Field of view fixed by the constructor: a sixth of a turn. */
  const FieldOfView: real := PI / 3.0
  /** Maximum render depth fixed by the constructor. */
  const MaxDepth: real := 16.0
  /** One rotation step: two degrees. */
  const TurnStep: real := PI / 90.0

  /** The movement keys as sampled for one frame: `a` and `d` held,
      `w` and `s` pressed. */
  datatype Controls = Controls(turnLeft: bool, turnRight: bool, forward: bool, backward: bool)

  /** A camera at `(x, y)` looking along `(sin angle, cos angle)`, so angle 0
      faces `+y` and the angle grows toward `+x`. The sine and cosine of the
      host platform are passed in by the caller. */
  class Camera {
    var x: real
    var y: real
    var angle: real
    var fov: real
    var depth: real

    /** The lens never changes after construction. */
    ghost predicate Valid()
      reads this
    {
      fov == FieldOfView && depth == MaxDepth
    }

    constructor (x0: real, y0: real, angle0: real)
      ensures Valid()
      ensures x == x0 && y == y0 && angle == angle0
      ensures 0.0 < fov < PI && depth > 0.0
    {
      x, y, angle := x0, y0, angle0;
      fov, depth := PI / 3.0, 16.0;
    }

    /** One unit step along the heading. */
    method MoveForward(sin: real -> real, cos: real -> real)
      modifies this`x, this`y
      ensures x == old(x) + sin(angle) && y == old(y) + cos(angle)
      ensures angle == old(angle) && fov == old(fov) && depth == old(depth)
    {
      x := x + sin(angle);
      y := y + cos(angle);
    }

    /** One unit step against the heading. */
    method MoveBackward(sin: real -> real, cos: real -> real)
      modifies this`x, this`y
      ensures x == old(x) - sin(angle) && y == old(y) - cos(angle)
      ensures angle == old(angle) && fov == old(fov) && depth == old(depth)
    {
      x := x - sin(angle);
      y := y - cos(angle);
    }

    /** Turn two degrees anticlockwise. */
    method RotateLeft()
      modifies this`angle
      ensures angle == old(angle) - TurnStep
      ensures x == old(x) && y == old(y) && fov == old(fov) && depth == old(depth)
    {
      angle := angle - PI / 90.0;
    }

    /** Turn two degrees clockwise. */
    method RotateRight()
      modifies this`angle
      ensures angle == old(angle) + TurnStep
      ensures x == old(x) && y == old(y) && fov == old(fov) && depth == old(depth)
    {
      angle := angle + PI / 90.0;
    }

    /** The frame's input step: rotations first, then the moves, which use
        the heading after the rotations. Opposite keys cancel exactly. */
    method ApplyControls(keys: Controls, sin: real -> real, cos: real -> real)
      modifies this
      ensures angle == old(angle) + (if keys.turnRight then TurnStep else 0.0)
                                  - (if keys.turnLeft then TurnStep else 0.0)
      ensures x == old(x) + (if keys.forward then sin(angle) else 0.0)
                          - (if keys.backward then sin(angle) else 0.0)
      ensures y == old(y) + (if keys.forward then cos(angle) else 0.0)
                          - (if keys.backward then cos(angle) else 0.0)
      ensures fov == old(fov) && depth == old(depth)
    {
      if keys.turnLeft { RotateLeft(); }
      if keys.turnRight { RotateRight(); }
      if keys.forward { MoveForward(sin, cos); }
      if keys.backward { MoveBackward(sin, cos); }
    }
  }

  /** Turning left then right gives back the exact heading and touches
      nothing else. */
  method TurnRoundTrip(camera: Camera)
    modifies camera
    ensures camera.angle == old(camera.angle)
    ensures camera.x == old(camera.x) && camera.y == old(camera.y)
    ensures camera.fov == old(camera.fov) && camera.depth == old(camera.depth)
  {
    camera.RotateLeft();
    camera.RotateRight();
  }

  /** A step forward then a step back at the same heading gives back the
      exact position and touches nothing else. */
  method StepRoundTrip(camera: Camera, sin: real -> real, cos: real -> real)
    modifies camera
    ensures camera.x == old(camera.x) && camera.y == old(camera.y)
    ensures camera.angle == old(camera.angle)
    ensures camera.fov == old(camera.fov) && camera.depth == old(camera.depth)
  {
    camera.MoveForward(sin, cos);
    camera.MoveBackward(sin, cos);
  }
}
