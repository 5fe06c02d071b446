/**
 Axis-aligned boxes (three.js `Box3`) and the collision oracle of the car:
 the car's box, shifted to a proposed position, is tested against each
 obstacle's box in turn.
 */
module Collision {
  import opened Vectors
  import opened Wrappers

  datatype Box = Box(min: Vec3, max: Vec3)

  /** `Box3.translate`: both corners move by `offset`. */
  function Translate(b: Box, offset: Vec3): (r: Box)
    ensures Sub(r.max, r.min) == Sub(b.max, b.min)
    ensures Sub(r.min, b.min) == offset
  {
    Box(Add(b.min, offset), Add(b.max, offset))
  }

  /**
   `Box3.intersectsBox`: the boxes share a point on every axis. The
   comparisons are inclusive, so boxes that only touch intersect.
   */
  predicate Overlaps(a: Box, b: Box) {
    b.max.x >= a.min.x && b.min.x <= a.max.x &&
    b.max.y >= a.min.y && b.min.y <= a.max.y &&
    b.max.z >= a.min.z && b.min.z <= a.max.z
  }

  /** The point lies in the closed box. */
  predicate Contains(b: Box, p: Vec3) {
    b.min.x <= p.x <= b.max.x && b.min.y <= p.y <= b.max.y && b.min.z <= p.z <= b.max.z
  }

  /** Non-empty boxes overlap exactly when they share a point. */
  lemma OverlapsIffCommonPoint(a: Box, b: Box)
    requires a.min.x <= a.max.x && a.min.y <= a.max.y && a.min.z <= a.max.z
    requires b.min.x <= b.max.x && b.min.y <= b.max.y && b.min.z <= b.max.z
    ensures Overlaps(a, b) <==> exists p :: Contains(a, p) && Contains(b, p)
  {
    if Overlaps(a, b) {
      var p := Vec3(Max(a.min.x, b.min.x), Max(a.min.y, b.min.y), Max(a.min.z, b.min.z));
      assert Contains(a, p) && Contains(b, p);
    }
  }

  function Max(u: real, v: real): real {
    if u < v then v else u
  }

  lemma OverlapsSymmetric(a: Box, b: Box)
    ensures Overlaps(a, b) == Overlaps(b, a)
  {
  }

  /** Moving both boxes by the same offset does not change whether they overlap. */
  lemma OverlapsTranslationInvariant(a: Box, b: Box, offset: Vec3)
    ensures Overlaps(Translate(a, offset), Translate(b, offset)) == Overlaps(a, b)
  {
  }

  /**
   The box the car's group occupies when it is drawn at `renderedPosition`
   with yaw `renderedYaw` (what `Box3.setFromObject` measures), moved by
   `newPosition - renderedPosition`. `shape(yaw)` is the box of the car
   model around the group's origin at that yaw.
   */
  function CarBox(shape: real -> Box, renderedPosition: Vec3, renderedYaw: real, newPosition: Vec3): Box {
    var measured := Translate(shape(renderedYaw), renderedPosition);
    Translate(measured, Sub(newPosition, renderedPosition))
  }

  /** In exact arithmetic the rendered position cancels: the box sits at the tested position. */
  lemma CarBoxAtTestedPosition(shape: real -> Box, renderedPosition: Vec3, renderedYaw: real, newPosition: Vec3)
    ensures CarBox(shape, renderedPosition, renderedYaw, newPosition) == Translate(shape(renderedYaw), newPosition)
  {
  }

  /** Some obstacle overlaps the box. */
  predicate Collides(box: Box, obstacles: seq<Box>) {
    exists j :: 0 <= j < |obstacles| && Overlaps(box, obstacles[j])
  }

  /** The index of the obstacle at which the scan of `obstacles` stops with a hit. */
  function FirstOverlap(box: Box, obstacles: seq<Box>): (r: Option<nat>)
    ensures r.Some? ==>
      r.value < |obstacles| && Overlaps(box, obstacles[r.value]) &&
      forall j :: 0 <= j < r.value ==> !Overlaps(box, obstacles[j])
    ensures r.None? ==> forall j :: 0 <= j < |obstacles| ==> !Overlaps(box, obstacles[j])
  {
    if |obstacles| == 0 then None
    else if Overlaps(box, obstacles[0]) then Some(0)
    else match FirstOverlap(box, obstacles[1..])
      case None => None
      case Some(i) => Some(i + 1)
  }

  /** The scan finds a hit exactly when some obstacle overlaps. */
  lemma CollidesIffFirstOverlap(box: Box, obstacles: seq<Box>)
    ensures Collides(box, obstacles) <==> FirstOverlap(box, obstacles).Some?
  {
    if FirstOverlap(box, obstacles).Some? {
      var i := FirstOverlap(box, obstacles).value;
      assert Overlaps(box, obstacles[i]);
    }
  }

  /** No obstacles, no collision. */
  lemma NoObstaclesNoCollision(box: Box)
    ensures !Collides(box, [])
  {
  }

  /** Registering one more obstacle adds exactly its own overlap to the answer. */
  lemma CollidesAppend(box: Box, obstacles: seq<Box>, extra: Box)
    ensures Collides(box, obstacles + [extra]) <==> Collides(box, obstacles) || Overlaps(box, extra)
  {
    var all := obstacles + [extra];
    if Overlaps(box, extra) {
      assert all[|obstacles|] == extra;
    }
    if Collides(box, obstacles) {
      var j :| 0 <= j < |obstacles| && Overlaps(box, obstacles[j]);
      assert all[j] == obstacles[j];
    }
    if Collides(box, all) {
      var j :| 0 <= j < |all| && Overlaps(box, all[j]);
      if j < |obstacles| {
        assert all[j] == obstacles[j];
      }
    }
  }
}
