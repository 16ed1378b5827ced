/**
 * The pieces both worlds register in the collision system the same way:
 * four invisible walls around a square world, and one collider per
 * signpost pole.
 */
module Scenery {
  import opened Geometry
  import opened Collision

  const WallHeight: real := 20.0
  const WallThickness: real := 2.0

  /**
   * The walls `createWorldBoundaries` registers for a world reaching
   * `worldSize` from the origin, in the order west, east, south, north.
   */
  function Walls(worldSize: real): (walls: seq<Boundary>)
    ensures |walls| == 4
    ensures forall i :: 0 <= i < |walls| ==> walls[i].min.y == 0.0 && walls[i].max.y == WallHeight
    ensures walls[0].max.x - walls[0].min.x == WallThickness && walls[0].min.x == -worldSize
    ensures walls[1].max.x - walls[1].min.x == WallThickness && walls[1].max.x == worldSize
    ensures walls[2].max.z - walls[2].min.z == WallThickness && walls[2].min.z == -worldSize
    ensures walls[3].max.z - walls[3].min.z == WallThickness && walls[3].max.z == worldSize
  {
    [ Boundary(Vec3(-worldSize, 0.0, -worldSize), Vec3(-worldSize + WallThickness, WallHeight, worldSize), "west-wall"),
      Boundary(Vec3(worldSize - WallThickness, 0.0, -worldSize), Vec3(worldSize, WallHeight, worldSize), "east-wall"),
      Boundary(Vec3(-worldSize, 0.0, -worldSize), Vec3(worldSize, WallHeight, -worldSize + WallThickness), "south-wall"),
      Boundary(Vec3(-worldSize, 0.0, worldSize - WallThickness), Vec3(worldSize, WallHeight, worldSize), "north-wall") ]
  }

  /** `createWorldBoundaries`: the four walls are appended, in order, and nothing else changes. */
  method AddWalls(system: CollisionSystem, worldSize: real)
    modifies system
    ensures system.boundaries == old(system.boundaries) + Walls(worldSize)
    ensures system.colliders == old(system.colliders)
  {
    var _ := system.AddBoundary(Vec3(-worldSize, 0.0, -worldSize), Vec3(-worldSize + WallThickness, WallHeight, worldSize), "west-wall");
    var _ := system.AddBoundary(Vec3(worldSize - WallThickness, 0.0, -worldSize), Vec3(worldSize, WallHeight, worldSize), "east-wall");
    var _ := system.AddBoundary(Vec3(-worldSize, 0.0, -worldSize), Vec3(worldSize, WallHeight, -worldSize + WallThickness), "south-wall");
    var _ := system.AddBoundary(Vec3(-worldSize, 0.0, worldSize - WallThickness), Vec3(worldSize, WallHeight, worldSize), "north-wall");
  }

  /** The box lies strictly inside the open square of half-side `half` on the ground. */
  predicate WithinSquare(b: Box, half: real) {
    -half < b.min.x && b.max.x < half && -half < b.min.z && b.max.z < half
  }

  /** The box reaches into the height band the walls occupy. */
  predicate AtWallHeight(b: Box) {
    0.0 < b.max.y && b.min.y < WallHeight
  }

  /**
   * Inside the world, at wall height, the walls block a box exactly when it
   * reaches into the 2-wide rim along one of the four edges.
   */
  lemma WallsBlockExactlyTheRim(worldSize: real, b: Box)
    requires b.min.x < b.max.x && b.min.z < b.max.z
    requires WithinSquare(b, worldSize) && AtWallHeight(b)
    ensures (exists i :: 0 <= i < |Walls(worldSize)| && BoundaryBlocks(Walls(worldSize)[i], b)) <==>
      || b.min.x < -worldSize + WallThickness
      || worldSize - WallThickness < b.max.x
      || b.min.z < -worldSize + WallThickness
      || worldSize - WallThickness < b.max.z
  {
    var w := Walls(worldSize);
    if b.min.x < -worldSize + WallThickness {
      assert BoundaryBlocks(w[0], b);
    } else if worldSize - WallThickness < b.max.x {
      assert BoundaryBlocks(w[1], b);
    } else if b.min.z < -worldSize + WallThickness {
      assert BoundaryBlocks(w[2], b);
    } else if worldSize - WallThickness < b.max.z {
      assert BoundaryBlocks(w[3], b);
    }
  }

  /** Every signpost collider is a 2 x 8 x 2 box. */
  const SignpostSize: Size := Size(2.0, 8.0, 2.0)

  /** The pole stands on the signpost's base point, so its centre is 4 above it. */
  function PolePosition(base: Vec3): Vec3 {
    Vec3(base.x, base.y + 4.0, base.z)
  }

  /** The pole's collider box rests on the base point and rises 8 above it. */
  lemma PoleColliderStandsOnBase(base: Vec3)
    ensures var b := BoxAround(PolePosition(base), SignpostSize);
      && b.min == Vec3(base.x - 1.0, base.y, base.z - 1.0)
      && b.max == Vec3(base.x + 1.0, base.y + 8.0, base.z + 1.0)
  {
  }

  /**
   * `createSignpost`'s collision part: a new pole at `PolePosition(base)`
   * and one collider for it named `signpost-<area>`.
   */
  method AddSignpost(system: CollisionSystem, base: Vec3, area: string) returns (pole: Owner, c: Collider)
    modifies system
    ensures fresh(pole) && pole.Position() == PolePosition(base)
    ensures fresh(c) && c.owner == pole && c.size == SignpostSize && c.name == "signpost-" + area
    ensures system.colliders == old(system.colliders) + [c]
    ensures system.boundaries == old(system.boundaries)
  {
    pole := new Owner(PolePosition(base));
    c := system.AddCollider(pole, SignpostSize, "signpost-" + area);
  }

  /** A signpost to be built: its base point on the ground and its area tag. */
  datatype Signpost = Signpost(base: Vec3, area: string)

  /** The colliders `cs` are, in order, the pole colliders of `signposts`. */
  predicate SignpostColliders(cs: seq<Collider>, signposts: seq<Signpost>)
    reads set k | 0 <= k < |cs| :: cs[k].owner
  {
    && |cs| == |signposts|
    && forall k :: 0 <= k < |cs| ==>
         && cs[k].size == SignpostSize
         && cs[k].name == "signpost-" + signposts[k].area
         && cs[k].owner.Position() == PolePosition(signposts[k].base)
  }
}
