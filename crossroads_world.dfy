/**
 * The crossroads world: four signposts, walls at 80 from the origin, and
 * four transition zones whose entry test is a circle around the zone's
 * centre.
 */
module Crossroads {
  import opened Geometry
  import opened Collision
  import opened Scenery
  import opened Wrappers

  /** A transition zone: centre on the ground, footprint, area tag and display name. */
  datatype Transition = Transition(center: Vec3, width: real, depth: real, area: string, name: string)

  /** What `checkAreaTransition` reports for the zone the player is in. */
  datatype TransitionHit = TransitionHit(area: string, name: string, distance: real)

  const WorldSize: real := 80.0

  const CrossroadsSignposts: seq<Signpost> := [
    Signpost(Vec3(0.0, 0.0, 45.0), "about"),
    Signpost(Vec3(45.0, 0.0, 0.0), "experience"),
    Signpost(Vec3(0.0, 0.0, -45.0), "projects"),
    Signpost(Vec3(-45.0, 0.0, 0.0), "danger")
  ]

  /** The zones of `createAreaTransitions`, in the order they are stored. */
  const Transitions: seq<Transition> := [
    Transition(Vec3(0.0, 0.0, 55.0), 12.0, 8.0, "about", "About Me Meadow"),
    Transition(Vec3(55.0, 0.0, 0.0), 8.0, 12.0, "experience", "Experience Village"),
    Transition(Vec3(0.0, 0.0, -55.0), 12.0, 8.0, "projects", "Projects Portal"),
    Transition(Vec3(-55.0, 0.0, 0.0), 8.0, 12.0, "danger", "Danger Dungeon")
  ]

  /** `Math.max(width, depth) / 2`: half the longer side of the footprint. */
  function Reach(t: Transition): (r: real)
    ensures t.width <= 2.0 * r && t.depth <= 2.0 * r
    ensures 2.0 * r == t.width || 2.0 * r == t.depth
  {
    (if t.width < t.depth then t.depth else t.width) / 2.0
  }

  /** The player is strictly closer to the zone's centre, on the ground, than its reach. */
  predicate InTransition(t: Transition, p: Vec3) {
    WithinDistance(Dist2XZ(p, t.center), Reach(t))
  }

  /** Zone `i` contains `p` and no earlier zone does. */
  predicate FirstTransition(ts: seq<Transition>, i: int, p: Vec3) {
    && 0 <= i < |ts|
    && InTransition(ts[i], p)
    && forall k :: 0 <= k < i ==> !InTransition(ts[k], p)
  }

  /** The report for zone `t`, with the distance as `Math.sqrt` computes it. */
  function HitFor(t: Transition, p: Vec3, sqrt: real -> real): TransitionHit {
    TransitionHit(t.area, t.name, sqrt(Dist2XZ(p, t.center)))
  }

  /** `InTransition` is the source's distance test `distance < maxDistance`. */
  lemma InTransitionIsDistanceTest(t: Transition, p: Vec3, sqrt: real -> real)
    requires IsSqrt(sqrt)
    ensures InTransition(t, p) <==> sqrt(Dist2XZ(p, t.center)) < Reach(t)
  {
    SquareNonNegative(p.x - t.center.x);
    SquareNonNegative(p.z - t.center.z);
    SqrtComparison(Dist2XZ(p, t.center), Reach(t), sqrt);
  }

  /** Every crossroads zone is a circle of radius 6, whichever way its footprint is turned. */
  lemma EveryReachIsSix(i: int)
    requires 0 <= i < |Transitions|
    ensures Reach(Transitions[i]) == 6.0
  {
  }

  /**
   * The test is the circle, not the footprint: 5 along the 8-deep side of
   * the meadow zone is outside the footprint but inside; its corner
   * (6, 4) is on the footprint but outside; and exactly 6 away is outside.
   */
  lemma CircleNotFootprint()
    ensures InTransition(Transitions[0], Vec3(0.0, 0.0, 60.0))
    ensures !InTransition(Transitions[0], Vec3(6.0, 0.0, 59.0))
    ensures !InTransition(Transitions[0], Vec3(6.0, 0.0, 55.0))
  {
    assert Dist2XZ(Vec3(0.0, 0.0, 60.0), Vec3(0.0, 0.0, 55.0)) == 25.0;
    assert Dist2XZ(Vec3(6.0, 0.0, 59.0), Vec3(0.0, 0.0, 55.0)) == 52.0;
    assert Dist2XZ(Vec3(6.0, 0.0, 55.0), Vec3(0.0, 0.0, 55.0)) == 36.0;
  }

  /** No point is in two crossroads zones, so the first match is the only match. */
  lemma TransitionsAreDisjoint(p: Vec3, i: int, j: int)
    requires 0 <= i < |Transitions| && 0 <= j < |Transitions| && i != j
    ensures !(InTransition(Transitions[i], p) && InTransition(Transitions[j], p))
  {
    EveryReachIsSix(i);
    EveryReachIsSix(j);
    if InTransition(Transitions[i], p) && InTransition(Transitions[j], p) {
      InsideCircleXZ(p, Transitions[i].center, 6.0);
      InsideCircleXZ(p, Transitions[j].center, 6.0);
    }
  }

  class CrossroadsWorld {
    const system: CollisionSystem
    var areaTransitions: seq<Transition>

    /**
     * The constructor's collision and zone work: the four signpost
     * colliders, then the four walls, then the zone list.
     */
    constructor (system: CollisionSystem)
      modifies system
      ensures this.system == system
      ensures areaTransitions == Transitions
      ensures system.boundaries == old(system.boundaries) + Walls(WorldSize)
      ensures |system.colliders| == |old(system.colliders)| + |CrossroadsSignposts|
      ensures system.colliders[..|old(system.colliders)|] == old(system.colliders)
      ensures SignpostColliders(system.colliders[|old(system.colliders)|..], CrossroadsSignposts)
    {
      this.system := system;
      new;
      CreateSignposts();
      AddWalls(system, WorldSize);
      areaTransitions := Transitions;
    }

    /** `createSignposts`: one pole collider per signpost, in list order. */
    method CreateSignposts()
      modifies system
      ensures system.boundaries == old(system.boundaries)
      ensures |system.colliders| == |old(system.colliders)| + |CrossroadsSignposts|
      ensures system.colliders[..|old(system.colliders)|] == old(system.colliders)
      ensures SignpostColliders(system.colliders[|old(system.colliders)|..], CrossroadsSignposts)
    {
      ghost var start := |system.colliders|;
      var i := 0;
      while i < |CrossroadsSignposts|
        invariant 0 <= i <= |CrossroadsSignposts|
        invariant system.boundaries == old(system.boundaries)
        invariant |system.colliders| == start + i
        invariant system.colliders[..start] == old(system.colliders)
        invariant SignpostColliders(system.colliders[start..], CrossroadsSignposts[..i])
      {
        var _, _ := AddSignpost(system, CrossroadsSignposts[i].base, CrossroadsSignposts[i].area);
        i := i + 1;
      }
    }

    /**
     * `checkAreaTransition`: the first zone, in stored order, whose centre is
     * strictly closer on the ground than its reach, with that distance; none
     * if there is no such zone.
     */
    method CheckAreaTransition(playerPosition: Vec3, sqrt: real -> real) returns (r: Option<TransitionHit>)
      requires IsSqrt(sqrt)
      ensures r == None <==> forall i :: 0 <= i < |areaTransitions| ==> !InTransition(areaTransitions[i], playerPosition)
      ensures r.Some? ==> exists i :: FirstTransition(areaTransitions, i, playerPosition) && r.value == HitFor(areaTransitions[i], playerPosition, sqrt)
    {
      var i := 0;
      while i < |areaTransitions|
        invariant 0 <= i <= |areaTransitions|
        invariant forall k :: 0 <= k < i ==> !InTransition(areaTransitions[k], playerPosition)
      {
        var t := areaTransitions[i];
        var distance := sqrt(Dist2XZ(playerPosition, t.center));
        InTransitionIsDistanceTest(t, playerPosition, sqrt);
        if distance < Reach(t) {
          assert FirstTransition(areaTransitions, i, playerPosition);
          return Some(TransitionHit(t.area, t.name, distance));
        }
        i := i + 1;
      }
      return None;
    }
  }
}
