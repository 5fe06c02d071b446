/**
 What one driving frame guarantees, and what a run of frames does.
 */
module FrameProperties {
  import opened Vectors
  import opened Input
  import opened Collision
  import opened Motion

  /** With no thrust key net-held, the move vector vanishes and velocity is only damped. */
  lemma CoastingOnlyDamps(velocity: Vec3, keys: Keys, rotation: real, delta: real, trig: Trig)
    requires keys.forward == keys.backward
    ensures NewVelocity(velocity, MoveVector(keys, rotation, delta, trig), delta) == Scale(velocity, 1.0 - FRICTION * delta)
  {
    assert MoveVector(keys, rotation, delta, trig) == ORIGIN;
    assert Add(velocity, ORIGIN) == velocity;
  }

  /**
   For `0 < FRICTION * delta < 1`, coasting moves every nonzero velocity
   component strictly toward zero and keeps zero components at zero, so
   the speed strictly decreases while the car moves.
   */
  lemma CoastingSlowsDown(velocity: Vec3, keys: Keys, rotation: real, delta: real, trig: Trig)
    requires keys.forward == keys.backward
    requires 0.0 < FRICTION * delta < 1.0
    ensures var v := NewVelocity(velocity, MoveVector(keys, rotation, delta, trig), delta);
      && (velocity.x == 0.0 ==> v.x == 0.0) && (velocity.x != 0.0 ==> Abs(v.x) < Abs(velocity.x))
      && (velocity.y == 0.0 ==> v.y == 0.0) && (velocity.y != 0.0 ==> Abs(v.y) < Abs(velocity.y))
      && (velocity.z == 0.0 ==> v.z == 0.0) && (velocity.z != 0.0 ==> Abs(v.z) < Abs(velocity.z))
  {
    CoastingOnlyDamps(velocity, keys, rotation, delta, trig);
    var k := 1.0 - FRICTION * delta;
    var v := NewVelocity(velocity, MoveVector(keys, rotation, delta, trig), delta);
    assert v.x == velocity.x * k && v.y == velocity.y * k && v.z == velocity.z * k;
    AbsShrinks(velocity.x, k);
    AbsShrinks(velocity.y, k);
    AbsShrinks(velocity.z, k);
  }

  /**
   Nothing bounds `delta`: once `FRICTION * delta > 2` the damping factor
   is below -1, and coasting reverses and amplifies every nonzero velocity
   component instead of slowing it.
   */
  lemma LongFrameAmplifiesVelocity(velocity: Vec3, keys: Keys, rotation: real, delta: real, trig: Trig)
    requires keys.forward == keys.backward
    requires FRICTION * delta > 2.0
    ensures var v := NewVelocity(velocity, MoveVector(keys, rotation, delta, trig), delta);
      && (velocity.x != 0.0 ==> Abs(v.x) > Abs(velocity.x) && (v.x < 0.0 <==> velocity.x > 0.0))
      && (velocity.y != 0.0 ==> Abs(v.y) > Abs(velocity.y) && (v.y < 0.0 <==> velocity.y > 0.0))
      && (velocity.z != 0.0 ==> Abs(v.z) > Abs(velocity.z) && (v.z < 0.0 <==> velocity.z > 0.0))
  {
    CoastingOnlyDamps(velocity, keys, rotation, delta, trig);
    var k := 1.0 - FRICTION * delta;
    var v := NewVelocity(velocity, MoveVector(keys, rotation, delta, trig), delta);
    assert v.x == velocity.x * k && v.y == velocity.y * k && v.z == velocity.z * k;
    AbsGrows(velocity.x, k);
    AbsGrows(velocity.y, k);
    AbsGrows(velocity.z, k);
  }

  /** Every branch commits the new heading and the new velocity, and draws the car with yaw `-rotation`. */
  lemma FrameCommitsHeadingAndVelocity(k: Kinematics, keys: Keys, r: Rendered, delta: real, scene: Scene)
    ensures var f := NextFrame(k, keys, r, delta, scene);
      && f.next.rotation == NewRotation(keys, k.rotation, delta)
      && f.next.velocity == NewVelocity(k.velocity, MoveVector(keys, k.rotation, delta, scene.trig), delta)
      && f.rendered.yaw == -f.next.rotation
  {
  }

  /**
   The collision response in priority order: the candidate when it is
   clear, else the X-only slide when that is clear, else the Z-only
   slide when that is clear, else the old position.
   */
  lemma FrameResolutionOrder(k: Kinematics, keys: Keys, r: Rendered, delta: real, scene: Scene)
    ensures var f := NextFrame(k, keys, r, delta, scene);
      var v := f.next.velocity;
      var candidate := Candidate(k.position, v, delta);
      var slideX := SlideX(k.position, v, delta);
      var slideZ := SlideZ(k.position, v, delta);
      && (f.branch == Advance <==> !HitAt(scene, r, candidate))
      && (f.branch == SlideAlongX <==> HitAt(scene, r, candidate) && !HitAt(scene, r, slideX))
      && (f.branch == SlideAlongZ <==> HitAt(scene, r, candidate) && HitAt(scene, r, slideX) && !HitAt(scene, r, slideZ))
      && (f.branch == Blocked <==> HitAt(scene, r, candidate) && HitAt(scene, r, slideX) && HitAt(scene, r, slideZ))
      && f.next.position == (match f.branch
                              case Advance => candidate
                              case SlideAlongX => slideX
                              case SlideAlongZ => slideZ
                              case Blocked => k.position)
  {
  }

  /**
   The car never commits a position the collision test reported as hit:
   it either stays where it was or moves to a position the test passed.
   */
  lemma FrameNeverEntersReportedCollision(k: Kinematics, keys: Keys, r: Rendered, delta: real, scene: Scene)
    ensures var f := NextFrame(k, keys, r, delta, scene);
      && (f.branch == Blocked ==> f.next.position == k.position)
      && (f.branch != Blocked ==> !HitAt(scene, r, f.next.position))
  {
  }

  /** When nothing blocks the candidate, the car goes exactly there. */
  lemma ClearPathAdvances(k: Kinematics, keys: Keys, r: Rendered, delta: real, scene: Scene)
    requires scene.obstacles == []
    ensures var f := NextFrame(k, keys, r, delta, scene);
      f.branch == Advance && f.next.position == Candidate(k.position, f.next.velocity, delta)
  {
    var f := NextFrame(k, keys, r, delta, scene);
    NoObstaclesNoCollision(CarBox(scene.carShape, r.position, r.yaw, Candidate(k.position, f.next.velocity, delta)));
  }

  /** The group is drawn at the committed position, unless the frame was blocked and nothing moved. */
  lemma FrameDrawsCommittedPosition(k: Kinematics, keys: Keys, r: Rendered, delta: real, scene: Scene)
    ensures var f := NextFrame(k, keys, r, delta, scene);
      && (f.branch != Blocked ==> f.rendered.position == f.next.position)
      && (f.branch == Blocked ==> f.rendered.position == r.position && f.next.position == k.position)
  {
  }

  /** A car at rest with no key held stays exactly as it is, whatever the obstacles. */
  lemma IdleCarStaysPut(k: Kinematics, r: Rendered, delta: real, scene: Scene)
    requires k.velocity == ORIGIN
    ensures NextFrame(k, NO_KEYS, r, delta, scene).next == k
  {
    var v := NewVelocity(k.velocity, MoveVector(NO_KEYS, k.rotation, delta, scene.trig), delta);
    assert v == ORIGIN;
    assert Candidate(k.position, v, delta) == k.position;
    assert SlideX(k.position, v, delta) == k.position;
    assert SlideZ(k.position, v, delta) == k.position;
  }

  /** Ground height, zero vertical speed and the drawn pose survive every frame, in every branch. */
  lemma FramePreservesConsistency(k: Kinematics, keys: Keys, r: Rendered, delta: real, scene: Scene)
    requires Consistent(k, r)
    ensures var f := NextFrame(k, keys, r, delta, scene);
      Consistent(f.next, f.rendered)
  {
    var f := NextFrame(k, keys, r, delta, scene);
    var v := f.next.velocity;
    assert v.y == 0.0;
    assert Candidate(k.position, v, delta).y == 1.0;
    assert SlideX(k.position, v, delta).y == 1.0;
    assert SlideZ(k.position, v, delta).y == 1.0;
  }

  /** The camera's look-at point is the unresolved candidate, lifted, even when the candidate collided. */
  lemma CameraUsesCandidate(k: Kinematics, keys: Keys, r: Rendered, delta: real, scene: Scene)
    ensures var f := NextFrame(k, keys, r, delta, scene);
      var candidate := Candidate(k.position, f.next.velocity, delta);
      && f.camera.lookAt == Add(candidate, LOOK_AT_LIFT)
      && f.camera.position == Add(candidate, RotateAboutY(CAMERA_OFFSET, -f.next.rotation, scene.trig))
      && f.camera.position.y == candidate.y + 5.0
  {
  }

  /** A blocked frame still aims the camera at the rejected candidate, not at where the car stayed. */
  lemma BlockedCameraLooksPastCar(k: Kinematics, keys: Keys, r: Rendered, delta: real, scene: Scene)
    requires NextFrame(k, keys, r, delta, scene).branch == Blocked
    requires Candidate(k.position, NextFrame(k, keys, r, delta, scene).next.velocity, delta) != k.position
    ensures var f := NextFrame(k, keys, r, delta, scene);
      f.camera.lookAt != Add(f.next.position, LOOK_AT_LIFT)
  {
  }

  /** At heading 0 (with sin 0 = 0 and cos 0 = 1) the camera sits 5 above and 10 behind along +z. */
  lemma CameraAtZeroHeading(at: Vec3, trig: Trig)
    requires trig.sin(0.0) == 0.0 && trig.cos(0.0) == 1.0
    ensures Camera(at, 0.0, trig) == CameraPose(Add(at, Vec3(0.0, 5.0, 10.0)), Add(at, Vec3(0.0, 2.0, 0.0)))
  {
    TurnByZero(CAMERA_OFFSET, trig);
  }

  /**
   Given the usual sine and cosine identities at the heading, the camera
   trails the car: 10 units opposite the direction the forward key
   pushes, and 5 units up.
   */
  lemma CameraTrailsHeading(at: Vec3, rotation: real, trig: Trig)
    requires trig.sin(-rotation / 2.0) == -trig.sin(rotation / 2.0)
    requires trig.cos(-rotation / 2.0) == trig.cos(rotation / 2.0)
    requires trig.sin(rotation) == 2.0 * trig.sin(rotation / 2.0) * trig.cos(rotation / 2.0)
    requires trig.cos(rotation) == 1.0 - 2.0 * trig.sin(rotation / 2.0) * trig.sin(rotation / 2.0)
    ensures Camera(at, rotation, trig).position ==
      Add(Add(at, Vec3(0.0, 5.0, 0.0)), Scale(Heading(rotation, trig), -10.0))
  {
    var s := trig.sin(rotation / 2.0);
    var c := trig.cos(rotation / 2.0);
    assert -rotation / 2.0 == -(rotation / 2.0);
    var turned := RotateAboutY(CAMERA_OFFSET, -rotation, trig);
    assert turned.x == 2.0 * c * (-s) * 10.0;
    assert turned.z == (1.0 - 2.0 * (-s) * (-s)) * 10.0;
  }

  /** The inputs of one frame: the key state it reads and its elapsed time. */
  datatype Tick = Tick(keys: Keys, delta: real)

  /** A run of frames, each seeing the previous frame's committed state. */
  function Drive(k: Kinematics, r: Rendered, ticks: seq<Tick>, scene: Scene): (Kinematics, Rendered)
    decreases |ticks|
  {
    if ticks == [] then (k, r)
    else
      var f := NextFrame(k, ticks[0].keys, r, ticks[0].delta, scene);
      Drive(f.next, f.rendered, ticks[1..], scene)
  }

  /** The consistency invariant holds after any run of frames that starts consistent. */
  lemma {:induction false} DrivePreservesConsistency(k: Kinematics, r: Rendered, ticks: seq<Tick>, scene: Scene)
    requires Consistent(k, r)
    ensures Consistent(Drive(k, r, ticks, scene).0, Drive(k, r, ticks, scene).1)
    decreases |ticks|
  {
    if ticks != [] {
      var f := NextFrame(k, ticks[0].keys, r, ticks[0].delta, scene);
      FramePreservesConsistency(k, ticks[0].keys, r, ticks[0].delta, scene);
      DrivePreservesConsistency(f.next, f.rendered, ticks[1..], scene);
    }
  }

  /** A car at rest that receives no key presses never moves, turns or speeds up, however long it runs. */
  lemma {:induction false} IdleCarStaysPutForever(k: Kinematics, r: Rendered, ticks: seq<Tick>, scene: Scene)
    requires k.velocity == ORIGIN
    requires forall i :: 0 <= i < |ticks| ==> ticks[i].keys == NO_KEYS
    ensures Drive(k, r, ticks, scene).0 == k
    decreases |ticks|
  {
    if ticks != [] {
      var f := NextFrame(k, ticks[0].keys, r, ticks[0].delta, scene);
      IdleCarStaysPut(k, r, ticks[0].delta, scene);
      assert forall i :: 0 <= i < |ticks[1..]| ==> ticks[1..][i].keys == NO_KEYS by {
        forall i | 0 <= i < |ticks[1..]|
          ensures ticks[1..][i].keys == NO_KEYS
        {
          assert ticks[1..][i] == ticks[i + 1];
        }
      }
      IdleCarStaysPutForever(f.next, f.rendered, ticks[1..], scene);
    }
  }
}
