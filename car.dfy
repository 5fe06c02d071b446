/**
 The `Car` component as an object: its state cells, the pose of the
 group it draws, the two key handlers, the collision check and the
 per-frame step. Every method is proved to compute what the functions of
 `Input` and `Motion` specify.
 */
module CarComponent {
  import opened Vectors
  import opened Wrappers
  import opened Input
  import opened Collision
  import opened Motion
  import opened FrameProperties

  class Car {
    /** The `position`, `rotation`, `velocity` and `keys` state cells. */
    var position: Vec3
    var rotation: real
    var velocity: Vec3
    var keys: Keys
    /** `carRef.current.position` and `carRef.current.rotation.y`: where the car model is drawn. */
    var renderedPosition: Vec3
    var renderedYaw: real
    /** The box of the loaded car model around the group's origin, for a given yaw. */
    const carShape: real -> Box
    const trig: Trig

    function State(): Kinematics
      reads this
    {
      Kinematics(position, rotation, velocity)
    }

    function Drawn(): Rendered
      reads this
    {
      Rendered(renderedPosition, renderedYaw)
    }

    ghost predicate Valid()
      reads this
    {
      Consistent(State(), Drawn())
    }

    /** The first render: state at its initial values, the group at the origin, unturned. */
    constructor (carShape: real -> Box, trig: Trig)
      ensures position == START_POSITION && rotation == 0.0 && velocity == ORIGIN && keys == NO_KEYS
      ensures renderedPosition == ORIGIN && renderedYaw == 0.0
      ensures this.carShape == carShape && this.trig == trig
      ensures Valid()
    {
      position := START_POSITION;
      rotation := 0.0;
      velocity := ORIGIN;
      keys := NO_KEYS;
      renderedPosition := ORIGIN;
      renderedYaw := 0.0;
      this.carShape := carShape;
      this.trig := trig;
    }

    /** The `keydown` listener. */
    method HandleKeyDown(key: string)
      modifies this
      ensures keys == KeyDown(old(keys), key)
      ensures State() == old(State()) && Drawn() == old(Drawn())
    {
      keys := SetFlag(keys, key, true);
    }

    /** The `keyup` listener. */
    method HandleKeyUp(key: string)
      modifies this
      ensures keys == KeyUp(old(keys), key)
      ensures State() == old(State()) && Drawn() == old(Drawn())
    {
      keys := SetFlag(keys, key, false);
    }

    /**
     `checkCollisions(newPosition)`: the car's box as drawn now, moved to
     `newPosition`, against each obstacle in order. `examined` counts the
     obstacles tested: the scan stops at the first overlapping one.
     */
    method CheckCollisions(newPosition: Vec3, obstacles: seq<Box>) returns (hit: bool, ghost examined: nat)
      ensures hit == HitAt(Scene(carShape, obstacles, trig), Drawn(), newPosition)
      ensures hit ==> FirstOverlap(CarBox(carShape, renderedPosition, renderedYaw, newPosition), obstacles) == Some(examined - 1)
      ensures !hit ==> examined == |obstacles|
    {
      var carBox := Translate(carShape(renderedYaw), renderedPosition);
      carBox := Translate(carBox, Sub(newPosition, renderedPosition));
      var i := 0;
      while i < |obstacles|
        invariant 0 <= i <= |obstacles|
        invariant forall j :: 0 <= j < i ==> !Overlaps(carBox, obstacles[j])
      {
        if Overlaps(carBox, obstacles[i]) {
          return true, i + 1;
        }
        i := i + 1;
      }
      return false, i;
    }

    /** The frame's `moveVector`, built component by component from the held thrust keys. */
    method Accelerate(delta: real) returns (move: Vec3)
      ensures move == MoveVector(keys, rotation, delta, trig)
    {
      move := ORIGIN;
      if keys.forward {
        move := move.(x := move.x + trig.sin(rotation) * ACCELERATION * delta);
        move := move.(z := move.z - trig.cos(rotation) * ACCELERATION * delta);
      }
      if keys.backward {
        move := move.(x := move.x - trig.sin(rotation) * ACCELERATION * delta);
        move := move.(z := move.z + trig.cos(rotation) * ACCELERATION * delta);
      }
    }

    /**
     The collision response of a frame and its commits: the candidate
     `tempPosition` if it is clear, else the X-only slide, else the Z-only
     slide, else the position stays; heading and velocity are committed in
     every case, and the group is drawn at whatever position was committed.
     */
    method Resolve(tempPosition: Vec3, newRotation: real, newVelocity: Vec3, delta: real, obstacles: seq<Box>)
      modifies this
      ensures keys == old(keys)
      ensures var scene := Scene(carShape, obstacles, trig);
        var slideX := SlideX(old(position), newVelocity, delta);
        var slideZ := SlideZ(old(position), newVelocity, delta);
        var branch := Choose(HitAt(scene, old(Drawn()), tempPosition), HitAt(scene, old(Drawn()), slideX), HitAt(scene, old(Drawn()), slideZ));
        && position == Committed(branch, old(position), tempPosition, slideX, slideZ)
        && rotation == newRotation && velocity == newVelocity
        && renderedPosition == (if branch == Blocked then old(renderedPosition) else position)
        && renderedYaw == -newRotation
    {
      ghost var examined;
      var hit;
      hit, examined := CheckCollisions(tempPosition, obstacles);
      if !hit {
        position := tempPosition;
        velocity := newVelocity;
        rotation := newRotation;
        renderedPosition := tempPosition;
        renderedYaw := -newRotation;
      } else {
        var tempPositionX := SlideX(position, newVelocity, delta);
        var tempPositionZ := SlideZ(position, newVelocity, delta);
        var collidedX, collidedZ;
        collidedX, examined := CheckCollisions(tempPositionX, obstacles);
        collidedZ, examined := CheckCollisions(tempPositionZ, obstacles);
        if !collidedX {
          position := tempPositionX;
          renderedPosition := tempPositionX;
        } else if !collidedZ {
          position := tempPositionZ;
          renderedPosition := tempPositionZ;
        }
        rotation := newRotation;
        renderedYaw := -newRotation;
        velocity := newVelocity;
      }
    }

    /**
     One `useFrame(delta)` callback with the registered obstacles' boxes.
     It commits exactly `NextFrame` of the state before it, keeps the key
     state and the consistency invariant, and returns the camera pose.
     */
    method Step(delta: real, obstacles: seq<Box>) returns (camera: CameraPose)
      requires Valid()
      modifies this
      ensures Valid()
      ensures keys == old(keys)
      ensures var f := NextFrame(old(State()), old(keys), old(Drawn()), delta, Scene(carShape, obstacles, trig));
        State() == f.next && Drawn() == f.rendered && camera == f.camera
    {
      FramePreservesConsistency(State(), keys, Drawn(), delta, Scene(carShape, obstacles, trig));
      var move := Accelerate(delta);

      var newRotation := rotation;
      if keys.left {
        newRotation := newRotation + TURN_RATE * delta;
      }
      if keys.right {
        newRotation := newRotation - TURN_RATE * delta;
      }

      var newVelocity := NewVelocity(velocity, move, delta);
      var tempPosition := Candidate(position, newVelocity, delta);
      Resolve(tempPosition, newRotation, newVelocity, delta, obstacles);

      var cameraOffset := RotateAboutY(CAMERA_OFFSET, -newRotation, trig);
      camera := CameraPose(Add(tempPosition, cameraOffset), Add(tempPosition, LOOK_AT_LIFT));
    }
  }
}
