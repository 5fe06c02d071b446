# Driving step of the toy-car scene

This project models the `Car` component of the toy-car scene in
`src/app/page.tsx` and proves properties of that model. The component is
a small kinematic controller:

- four key flags, set and cleared by `keydown` / `keyup` events on the
  arrow keys and W/A/S/D;
- per frame, a thrust vector along the car's heading (`acceleration` 30),
  a heading change of 2 rad/s, a velocity damped by `1 - friction * delta`
  (`friction` 3), and a candidate position;
- the collision response: the candidate if clear, else a slide along X,
  else a slide along Z, else stay put;
- a chase camera 5 above and 10 behind the car, looking at a point 2 above
  it.

Modules:

- `Vectors`: three.js `Vector3` arithmetic over the reals, and the
  rotation `applyAxisAngle` performs (a half-angle quaternion applied as
  `v + w t + q × t` with `t = 2 q × v`). Sine and cosine are not
  interpreted: a `Trig` value carries them, and every lemma that needs a
  trigonometric fact takes it as a precondition.
- `Input`: the key flags, the key-to-command mapping, and the two
  handlers as functions.
- `Collision`: `Box3` with `translate` and `intersectsBox`, the car's box
  moved to a proposed position, and the first-hit scan over the obstacles.
- `Motion`: the pieces of one frame, and `NextFrame`, the whole frame as a
  function of the previous committed state.
- `FrameProperties`: lemmas about `NextFrame`, and `Drive`, a run of frames.
- `CarComponent`: `class Car`. Its fields are the state cells (`position`,
  `rotation`, `velocity`, `keys`) and the drawn pose of the car's group
  (`renderedPosition`, `renderedYaw`). Its methods are the key handlers,
  `CheckCollisions` (a loop with an early exit) and `Step`, the frame
  callback. `Step` is proved to commit exactly `NextFrame` and to keep the
  invariant `Valid()`: ground height 1, no vertical speed, yaw equal to
  `-rotation`, and the group drawn at the state position (or still at the
  origin before the first move).

Where this model departs from a plain reading of the component, it follows
the code:

- The camera is placed from `tempPosition`, the candidate before the
  collision response, not from the committed position. A blocked frame
  therefore aims the camera past the car (`BlockedCameraLooksPastCar`).
- The camera offset `(0, 5, 10)` is turned by `-newRotation`. At heading
  π/2 this puts the camera at the candidate plus `(-10, 5, 0)`, which is
  10 units opposite the forward direction `(sin r, 0, -cos r)`
  (`CameraTrailsHeading`).
- The group `carRef` is mounted at the origin while the `position` state
  starts at `(0, 1, 0)`. The collision box is measured where the group is
  drawn and then moved by `newPosition - carRef.position`, so in exact
  arithmetic the drawn position cancels (`CarBoxAtTestedPosition`).
- The collision box is measured at the yaw the group was drawn with in
  the previous frame (`carRef.current.rotation.y`), because the frame
  sets the new yaw only after all three checks. `HitAt` tests with that
  old yaw, and the frame then commits yaw `-newRotation`. So the box at
  the committed position and the new yaw is never tested itself.
  `FrameNeverEntersReportedCollision` holds for the box as tested. A
  frame that only turns the car next to an obstacle can leave the drawn
  car's box overlapping it.

## Model

| member | source | states |
|---|---|---|
| Vectors.TurnByZero | src/app/page.tsx:163-166 | with sin 0 = 0 and cos 0 = 1, turning by -0 about the vertical axis leaves the vector unchanged |
| Vectors.RotateAboutY | src/app/page.tsx:163-166 | turning about the vertical axis keeps the height, and x and z are the half-angle quaternion rotation of the offset |
| Input.CommandOf | src/app/page.tsx:38-55 | ArrowUp/w select forward, ArrowDown/s backward, ArrowLeft/a left, ArrowRight/d right, each as an if-and-only-if; any other key selects nothing |
| Input.KeyDown | src/app/page.tsx:37-56 | a mapped key sets exactly its command's flag and leaves the other three; an unmapped key changes nothing |
| Input.KeyUp | src/app/page.tsx:58-77 | a mapped key clears exactly its command's flag and leaves the other three; an unmapped key changes nothing |
| Input.SetFlag | src/app/page.tsx:38-55 | no contract: the shared switch of both handlers, `{ ...keys, flag: value }` for the selected flag; its properties are stated by `Input.KeyDown`, `Input.KeyUp` and `Input.DistinctKeysCommute` |
| Input.KeysExtensional | src/app/page.tsx:15-20 | two key states that agree on all four commands are equal |
| Input.KeyDownIdempotent | src/app/page.tsx:37-56 | a repeated key-down is the same as a single one |
| Input.KeyUpUndoesKeyDown | src/app/page.tsx:37-77 | releasing a key pressed from the released state restores the previous key state |
| Input.DistinctKeysCommute | src/app/page.tsx:37-77 | events for keys of different commands can be applied in either order |
| Collision.Translate | src/app/page.tsx:90-92 | translating a box keeps its size and moves its min corner by exactly the offset |
| Collision.Overlaps | src/app/page.tsx:96 | no contract: the six inclusive comparisons of `intersectsBox`; see `Collision.OverlapsIffCommonPoint`, `Collision.OverlapsSymmetric` and `Collision.OverlapsTranslationInvariant` |
| Collision.OverlapsIffCommonPoint | src/app/page.tsx:96 | two non-empty boxes intersect exactly when they share a point |
| Collision.OverlapsSymmetric | src/app/page.tsx:96 | the intersection test is symmetric |
| Collision.OverlapsTranslationInvariant | src/app/page.tsx:90-96 | moving both boxes by the same offset does not change the intersection test |
| Collision.CarBox | src/app/page.tsx:89-92 | no contract: the box measured at the drawn pose, then translated by `newPosition - carRef.position`; see `Collision.CarBoxAtTestedPosition` |
| Collision.CarBoxAtTestedPosition | src/app/page.tsx:89-92 | the car box measured where the group is drawn and moved by `newPosition - carRef.position` is the car's shape placed at `newPosition` |
| Collision.Collides | src/app/page.tsx:94-100 | no contract: some obstacle's box intersects the car box; `Collision.CollidesIffFirstOverlap` ties it to the scan and `CarComponent.Car.CheckCollisions` to the loop |
| Collision.FirstOverlap | src/app/page.tsx:94-100 | the scan returns the first obstacle that intersects the car box, with none before it; it returns nothing only when no obstacle intersects |
| Collision.CollidesIffFirstOverlap | src/app/page.tsx:94-100 | the scan reports a hit exactly when some obstacle intersects |
| Collision.NoObstaclesNoCollision | src/app/page.tsx:94-100 | with no obstacles registered there is never a collision |
| Collision.CollidesAppend | src/app/page.tsx:94-100 | registering one more obstacle adds exactly that obstacle's intersection to the answer |
| Motion.MoveVector | src/app/page.tsx:104-113 | the move vector has no vertical part; opposed or absent thrust keys give zero; forward alone gives the heading times `acceleration * delta`, backward alone its negation |
| Motion.NewRotation | src/app/page.tsx:115-121 | opposed or absent turn keys keep the heading; left alone adds `2 * delta`, right alone subtracts it |
| Motion.NewVelocity | src/app/page.tsx:123-124 | no contract: the old velocity plus the move vector, times `1 - friction * delta`; see `FrameProperties.CoastingOnlyDamps`, `FrameProperties.CoastingSlowsDown` and `FrameProperties.LongFrameAmplifiesVelocity` |
| Motion.Candidate | src/app/page.tsx:126-128 | no contract: `tempPosition`, the old position plus the new velocity times `delta`; see `FrameProperties.FrameResolutionOrder` and `FrameProperties.CameraUsesCandidate` |
| Motion.SlideX | src/app/page.tsx:139-141 | the X-only slide is the candidate with z reset to the old value: x and y as the candidate's, z as the old position's |
| Motion.SlideZ | src/app/page.tsx:140-142 | the Z-only slide is the candidate with x reset to the old value: y and z as the candidate's, x as the old position's |
| Motion.Choose | src/app/page.tsx:130-153 | the branch is Advance exactly when the candidate is clear, SlideAlongX exactly when the candidate hits and the X slide is clear, SlideAlongZ exactly when both hit and the Z slide is clear, Blocked exactly when all three hit |
| Motion.Committed | src/app/page.tsx:130-153 | no contract: the position each branch commits (the old one when blocked); see `FrameProperties.FrameResolutionOrder` and `FrameProperties.FrameNeverEntersReportedCollision` |
| Motion.HitAt | src/app/page.tsx:130-145 | no contract: `checkCollisions(p)` as the frame calls it, against the pose drawn before the frame; `CarComponent.Car.CheckCollisions` is proved to compute it |
| Motion.Camera | src/app/page.tsx:162-168 | the camera is 5 above the point it follows, and it looks at that point lifted by (0, 2, 0); see also `FrameProperties.CameraAtZeroHeading` and `FrameProperties.CameraTrailsHeading` |
| Motion.NextFrame | src/app/page.tsx:103-171 | no contract: one frame as a function of the previous committed state, the keys, the drawn pose, `delta` and the scene; its properties are the `FrameProperties` lemmas, and `CarComponent.Car.Step` is proved to compute it |
| FrameProperties.CoastingOnlyDamps | src/app/page.tsx:123-124 | with no net thrust the new velocity is the old one times `1 - friction * delta` |
| FrameProperties.CoastingSlowsDown | src/app/page.tsx:123-124 | for `0 < friction * delta < 1`, coasting keeps zero velocity components at zero and moves each nonzero one strictly toward zero |
| FrameProperties.LongFrameAmplifiesVelocity | src/app/page.tsx:124 | once `friction * delta > 2`, coasting reverses every nonzero velocity component (x, y and z) and makes it larger |
| FrameProperties.FrameCommitsHeadingAndVelocity | src/app/page.tsx:130-160 | every branch commits the new heading and the new velocity, and draws the car with yaw `-newRotation` |
| FrameProperties.FrameResolutionOrder | src/app/page.tsx:130-153 | the response is the candidate if clear, else the X slide if clear, else the Z slide if clear, else the old position, each as an if-and-only-if on the collision results |
| FrameProperties.FrameNeverEntersReportedCollision | src/app/page.tsx:130-153 | a committed new position is always one the collision test passed; a blocked frame keeps the old position |
| FrameProperties.ClearPathAdvances | src/app/page.tsx:130-136 | with no obstacles the car always moves to the candidate |
| FrameProperties.FrameDrawsCommittedPosition | src/app/page.tsx:130-153 | the group is drawn at the committed position, and stays where it was drawn when the frame is blocked |
| FrameProperties.IdleCarStaysPut | src/app/page.tsx:103-160 | a car at rest with no key held keeps its position, heading and zero velocity |
| FrameProperties.FramePreservesConsistency | src/app/page.tsx:103-160 | ground height 1, zero vertical speed, yaw `-rotation` and the drawn position survive every frame in every branch |
| FrameProperties.CameraUsesCandidate | src/app/page.tsx:162-171 | the camera is the turned offset added to the unresolved candidate, it looks at the candidate lifted by 2, and it is always 5 above the candidate |
| FrameProperties.BlockedCameraLooksPastCar | src/app/page.tsx:137-171 | in a blocked frame whose candidate differs from the old position, the camera does not look at the car's committed position |
| FrameProperties.CameraAtZeroHeading | src/app/page.tsx:162-171 | at heading 0 the camera sits at the candidate plus (0, 5, 10), looking at the candidate plus (0, 2, 0) |
| FrameProperties.CameraTrailsHeading | src/app/page.tsx:162-167 | under the half-angle and parity identities the camera is 5 above and 10 opposite the forward direction |
| FrameProperties.DrivePreservesConsistency | src/app/page.tsx:103-172 | the consistency invariant holds after any run of frames that starts consistent |
| FrameProperties.IdleCarStaysPutForever | src/app/page.tsx:103-172 | a car at rest that never sees a key held stays exactly where and as it is over any run of frames |
| CarComponent.Car.constructor | src/app/page.tsx:11-20 | the initial state is position (0, 1, 0), heading 0, zero velocity and no key held, with the group at the origin; it satisfies the invariant |
| CarComponent.Car.HandleKeyDown | src/app/page.tsx:37-56 | the key state becomes `KeyDown` of the old one; nothing else changes |
| CarComponent.Car.HandleKeyUp | src/app/page.tsx:58-77 | the key state becomes `KeyUp` of the old one; nothing else changes |
| CarComponent.Car.CheckCollisions | src/app/page.tsx:88-101 | the result is whether the car box at the proposed position intersects some obstacle; on a hit the loop has examined exactly the obstacles up to the first intersecting one, otherwise all of them |
| CarComponent.Car.Accelerate | src/app/page.tsx:104-113 | the component-wise increments build exactly `MoveVector` |
| CarComponent.Car.Resolve | src/app/page.tsx:130-160 | the fields become the committed position chosen in priority order, the new heading and velocity, and the matching drawn pose; the keys are kept |
| CarComponent.Car.Step | src/app/page.tsx:103-171 | one frame commits exactly `NextFrame` of the previous state, returns its camera pose, keeps the keys and preserves the invariant |

## Left out

- Loading the GLTF model, scaling it by 10 and its shadow flags (src/app/page.tsx:8, 25-34): rendering only. The car model's box at each yaw is a parameter, `carShape`.
- Registering and removing the window listeners (src/app/page.tsx:79-85): the handlers are modelled as methods on the car.
- `Box3.setFromObject` on the car group and on each obstacle mesh: the obstacles arrive as boxes, and the car's box is `carShape(yaw)` translated to the drawn position.
- The JSX tree, the debug wireframe, the ground, the lights and `OrbitControls` (src/app/page.tsx:174-235), and each `Obstacle` pushing its mesh into the shared list: `Step` takes the list of obstacle boxes as a parameter.
- React's state timing: the model assumes each frame sees the state committed by the previous frame. Stale closures and batched updates are not modelled.
- Floating-point rounding: all arithmetic is on exact reals. Because of this, `newPosition - carRef.position` cancels exactly, which it need not do in floating point.
- The values of `Math.sin` and `Math.cos`: they are uninterpreted functions, and trigonometric identities appear only as preconditions of the camera lemmas.
- `applyAxisAngle` is modelled as the quaternion form used by current three.js releases. Older releases compute the same rotation by a different formula.
- No bound on `delta` is assumed, since the code has none. `LongFrameAmplifiesVelocity` states what a long frame does.
- FrameProperties.CoastingSlowsDown: states the friction decay coordinate by coordinate. The decrease of the Euclidean speed follows from it, because every coordinate shrinks by the same factor, but it is not stated as a lemma of its own.
