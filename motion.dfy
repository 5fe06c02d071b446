/**
 One frame of the car's driving step, as a function of the previous
 frame's committed state: thrust and turning from the held keys, the
 friction-damped velocity, the candidate position, the sliding collision
 response, and the chase-camera pose. `CarComponent.Car.Step` is proved
 to compute exactly `NextFrame`.
 */
module Motion {
  import opened Vectors
  import opened Input
  import opened Collision

  /** `acceleration`, in world units per second squared. */
  const ACCELERATION: real := 30.0
  /** `friction`, per second. */
  const FRICTION: real := 3.0
  /** The turn speed written into the step, in radians per second. */
  const TURN_RATE: real := 2.0
  /** The state position the car starts from. */
  const START_POSITION := Vec3(0.0, 1.0, 0.0)
  /** The camera's offset from the car before it is turned with the car. */
  const CAMERA_OFFSET := Vec3(0.0, 5.0, 10.0)
  /** Where the camera looks, relative to the car. */
  const LOOK_AT_LIFT := Vec3(0.0, 2.0, 0.0)

  /** The `position`, `rotation` and `velocity` state cells. */
  datatype Kinematics = Kinematics(position: Vec3, rotation: real, velocity: Vec3)

  /** What the car's group is drawn with: `carRef.current.position` and `.rotation.y`. */
  datatype Rendered = Rendered(position: Vec3, yaw: real)

  /** `state.camera.position` and the point passed to `state.camera.lookAt`. */
  datatype CameraPose = CameraPose(position: Vec3, lookAt: Vec3)

  /** What the frame sees of the world: the car model's box by yaw, the obstacle boxes, sine and cosine. */
  datatype Scene = Scene(carShape: real -> Box, obstacles: seq<Box>, trig: Trig)

  /** How the frame's collision response ended. */
  datatype Branch = Advance | SlideAlongX | SlideAlongZ | Blocked

  /** The result of one frame. */
  datatype Frame = Frame(branch: Branch, next: Kinematics, rendered: Rendered, camera: CameraPose)

  /** +1 with only the forward key held, -1 with only the backward key, 0 otherwise. */
  function Thrust(keys: Keys): real {
    (if keys.forward then 1.0 else 0.0) - (if keys.backward then 1.0 else 0.0)
  }

  /** +1 with only the left key held, -1 with only the right key, 0 otherwise. */
  function Turn(keys: Keys): real {
    (if keys.left then 1.0 else 0.0) - (if keys.right then 1.0 else 0.0)
  }

  /** The direction the forward key pushes the car at this heading. */
  function Heading(rotation: real, trig: Trig): Vec3 {
    Vec3(trig.sin(rotation), 0.0, -trig.cos(rotation))
  }

  /** The frame's `moveVector`: thrust along the current heading, `ACCELERATION * delta` long. */
  function MoveVector(keys: Keys, rotation: real, delta: real, trig: Trig): (m: Vec3)
    ensures m.y == 0.0
    ensures keys.forward == keys.backward ==> m == ORIGIN
    ensures keys.forward && !keys.backward ==> m == Scale(Heading(rotation, trig), ACCELERATION * delta)
    ensures keys.backward && !keys.forward ==> m == Scale(Heading(rotation, trig), -(ACCELERATION * delta))
  {
    Scale(Heading(rotation, trig), Thrust(keys) * (ACCELERATION * delta))
  }

  /** The frame's `newRotation`. */
  function NewRotation(keys: Keys, rotation: real, delta: real): (r: real)
    ensures keys.left == keys.right ==> r == rotation
    ensures keys.left && !keys.right ==> r == rotation + TURN_RATE * delta
    ensures keys.right && !keys.left ==> r == rotation - TURN_RATE * delta
  {
    rotation + Turn(keys) * (TURN_RATE * delta)
  }

  /** The frame's `newVelocity`: the move added, then the total damped by `1 - FRICTION * delta`. */
  function NewVelocity(velocity: Vec3, move: Vec3, delta: real): Vec3 {
    Scale(Add(velocity, move), 1.0 - FRICTION * delta)
  }

  /** `tempPosition`: the position the new velocity reaches after `delta`. */
  function Candidate(position: Vec3, velocity: Vec3, delta: real): Vec3 {
    Add(position, Scale(velocity, delta))
  }

  /** `tempPositionX`: the candidate with its z reset to the old z, i.e. the old position moved by the velocity with its z part zeroed. */
  function SlideX(position: Vec3, velocity: Vec3, delta: real): (p: Vec3)
    ensures p.z == position.z
    ensures var c := Candidate(position, velocity, delta); p.x == c.x && p.y == c.y
  {
    Add(position, Scale(velocity.(z := 0.0), delta))
  }

  /** `tempPositionZ`: the candidate with its x reset to the old x, i.e. the old position moved by the velocity with its x part zeroed. */
  function SlideZ(position: Vec3, velocity: Vec3, delta: real): (p: Vec3)
    ensures p.x == position.x
    ensures var c := Candidate(position, velocity, delta); p.y == c.y && p.z == c.z
  {
    Add(position, Scale(velocity.(x := 0.0), delta))
  }

  /** The collision response, tried in order: the candidate, X-only, Z-only, stay put. */
  function Choose(hitCandidate: bool, hitX: bool, hitZ: bool): (b: Branch)
    ensures b == Advance <==> !hitCandidate
    ensures b == SlideAlongX <==> hitCandidate && !hitX
    ensures b == SlideAlongZ <==> hitCandidate && hitX && !hitZ
    ensures b == Blocked <==> hitCandidate && hitX && hitZ
  {
    if !hitCandidate then Advance
    else if !hitX then SlideAlongX
    else if !hitZ then SlideAlongZ
    else Blocked
  }

  /** The position a branch commits. */
  function Committed(branch: Branch, position: Vec3, candidate: Vec3, slideX: Vec3, slideZ: Vec3): Vec3 {
    match branch
    case Advance => candidate
    case SlideAlongX => slideX
    case SlideAlongZ => slideZ
    case Blocked => position
  }

  /** `checkCollisions(p)` as the frame sees it: the car's box, drawn as `rendered`, moved to `p`. */
  predicate HitAt(scene: Scene, rendered: Rendered, p: Vec3) {
    Collides(CarBox(scene.carShape, rendered.position, rendered.yaw, p), scene.obstacles)
  }

  /** The chase camera: the offset turned by `-rotation` about the vertical axis, and the lifted look-at point. */
  function Camera(at: Vec3, rotation: real, trig: Trig): (c: CameraPose)
    ensures c.position.y == at.y + CAMERA_OFFSET.y
    ensures Sub(c.lookAt, at) == LOOK_AT_LIFT
  {
    CameraPose(Add(at, RotateAboutY(CAMERA_OFFSET, -rotation, trig)), Add(at, LOOK_AT_LIFT))
  }

  /**
   What holds of the car between frames: it stays at ground height 1
   with no vertical speed, it is drawn with yaw `-rotation`, and it is
   drawn where its state says, except before it has ever moved, when the
   group is still at the origin while the state position is the start.
   */
  predicate Consistent(k: Kinematics, r: Rendered) {
    && k.position.y == 1.0
    && k.velocity.y == 0.0
    && r.yaw == -k.rotation
    && (r.position == k.position || (r.position == ORIGIN && k.position == START_POSITION))
  }

  /** One `useFrame` callback. */
  function NextFrame(k: Kinematics, keys: Keys, rendered: Rendered, delta: real, scene: Scene): Frame {
    var move := MoveVector(keys, k.rotation, delta, scene.trig);
    var rotation := NewRotation(keys, k.rotation, delta);
    var velocity := NewVelocity(k.velocity, move, delta);
    var candidate := Candidate(k.position, velocity, delta);
    var slideX := SlideX(k.position, velocity, delta);
    var slideZ := SlideZ(k.position, velocity, delta);
    var branch := Choose(HitAt(scene, rendered, candidate), HitAt(scene, rendered, slideX), HitAt(scene, rendered, slideZ));
    var position := Committed(branch, k.position, candidate, slideX, slideZ);
    Frame(branch,
          Kinematics(position, rotation, velocity),
          Rendered(if branch == Blocked then rendered.position else position, -rotation),
          Camera(candidate, rotation, scene.trig))
  }
}
