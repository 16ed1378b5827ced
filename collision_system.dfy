/**
 * The collision registry: static boundary boxes plus colliders that follow
 * a live scene object, and the first-match overlap query every moving
 * entity asks before it moves.
 */
module Collision {
  import opened Geometry

  /** A fixed box registered by `addBoundary`. */
  datatype Boundary = Boundary(min: Vec3, max: Vec3, name: string)
  {
    function Box(): Box {
      Geometry.Box(min, max)
    }
  }

  /**
   * A collider registered by `addCollider`: it keeps a reference to its
   * scene object and a size, and its box is rebuilt around the object's
   * current position at every query.  Colliders are compared by identity,
   * as `indexOf` does.
   */
  class Collider {
    const owner: Owner
    const size: Size
    const name: string

    constructor (owner: Owner, size: Size, name: string)
      ensures this.owner == owner && this.size == size && this.name == name
    {
      this.owner := owner;
      this.size := size;
      this.name := name;
    }

    function CurrentBox(): (b: Box)
      reads owner
    {
      BoxAround(owner.Position(), size)
    }
  }

  /**
   * A collider blocks a query box exactly when, on every axis, the distance
   * from the query centre to the owner's current position is below half the
   * sum of the two sizes.  Nothing about the box is cached: it is the
   * owner's position at the moment of the query that counts.
   */
  lemma ColliderBlocksNearOwner(c: Collider, q: Vec3, s: Size)
    ensures var p := c.owner.Position();
      ColliderBlocks(c, BoxAround(q, s)) <==>
        && Abs(q.x - p.x) < (s.width + c.size.width) / 2.0
        && Abs(q.y - p.y) < (s.height + c.size.height) / 2.0
        && Abs(q.z - p.z) < (s.depth + c.size.depth) / 2.0
  {
  }

  /** The answer of `checkCollision`: nothing, or the first box that overlaps. */
  datatype CollisionResult =
    | NoCollision
    | BoundaryHit(boundary: Boundary)
    | ColliderHit(collider: Collider)

  predicate BoundaryBlocks(b: Boundary, box: Box) {
    Intersects(box, b.Box())
  }

  predicate ColliderBlocks(c: Collider, box: Box)
    reads c.owner
  {
    Intersects(box, c.CurrentBox())
  }

  /** The index of the first occurrence of `c`, or -1 (`Array.prototype.indexOf`). */
  function IndexOf(s: seq<Collider>, c: Collider): (k: int)
    ensures -1 <= k < |s|
    ensures k == -1 <==> c !in s
    ensures 0 <= k ==> s[k] == c && c !in s[..k]
  {
    if |s| == 0 then -1
    else if s[0] == c then 0
    else
      var k := IndexOf(s[1..], c);
      if k == -1 then -1
      else
        assert s[..k + 1] == [s[0]] + s[1..][..k];
        k + 1
  }

  /** `splice(k, 1)`: the sequence without its element at `k`, order kept. */
  function RemoveAt(s: seq<Collider>, k: nat): (r: seq<Collider>)
    requires k < |s|
    ensures |r| == |s| - 1
    ensures multiset(r) + multiset{s[k]} == multiset(s)
    ensures forall i :: 0 <= i < k ==> r[i] == s[i]
    ensures forall i :: k <= i < |r| ==> r[i] == s[i + 1]
  {
    assert s == s[..k] + [s[k]] + s[k + 1..];
    s[..k] + s[k + 1..]
  }

  class CollisionSystem {
    var boundaries: seq<Boundary>
    var colliders: seq<Collider>

    constructor ()
      ensures boundaries == [] && colliders == []
    {
      boundaries := [];
      colliders := [];
    }

    /** The scene objects whose positions the query reads. */
    function Owners(): set<Owner>
      reads this
    {
      set i | 0 <= i < |colliders| :: colliders[i].owner
    }

    /** Some registered box overlaps the box of `size` centred at `position`. */
    predicate Collides(position: Vec3, size: Size)
      reads this, Owners()
    {
      var box := BoxAround(position, size);
      || (exists i :: 0 <= i < |boundaries| && BoundaryBlocks(boundaries[i], box))
      || (exists j :: 0 <= j < |colliders| && ColliderBlocks(colliders[j], box))
    }

    /** Boundary `i` overlaps `box` and no earlier boundary does. */
    predicate FirstBlockingBoundary(i: int, box: Box)
      reads this
    {
      && 0 <= i < |boundaries|
      && BoundaryBlocks(boundaries[i], box)
      && forall k :: 0 <= k < i ==> !BoundaryBlocks(boundaries[k], box)
    }

    /** No boundary overlaps `box`, collider `j` does and no earlier collider does. */
    predicate FirstBlockingCollider(j: int, box: Box)
      reads this, Owners()
    {
      && 0 <= j < |colliders|
      && (forall k :: 0 <= k < |boundaries| ==> !BoundaryBlocks(boundaries[k], box))
      && ColliderBlocks(colliders[j], box)
      && forall k :: 0 <= k < j ==> !ColliderBlocks(colliders[k], box)
    }

    method AddBoundary(min: Vec3, max: Vec3, name: string) returns (b: Boundary)
      modifies this
      ensures b == Boundary(min, max, name)
      ensures boundaries == old(boundaries) + [b]
      ensures colliders == old(colliders)
    {
      b := Boundary(min, max, name);
      boundaries := boundaries + [b];
    }

    method AddCollider(owner: Owner, size: Size, name: string) returns (c: Collider)
      modifies this
      ensures fresh(c) && c.owner == owner && c.size == size && c.name == name
      ensures colliders == old(colliders) + [c]
      ensures boundaries == old(boundaries)
    {
      c := new Collider(owner, size, name);
      colliders := colliders + [c];
    }

    /** Removes the first registration of `c`; reports whether there was one. */
    method RemoveCollider(c: Collider) returns (removed: bool)
      modifies this
      ensures removed <==> c in old(colliders)
      ensures removed ==> colliders == RemoveAt(old(colliders), IndexOf(old(colliders), c))
      ensures !removed ==> colliders == old(colliders)
      ensures boundaries == old(boundaries)
    {
      var index := IndexOf(colliders, c);
      if index > -1 {
        colliders := RemoveAt(colliders, index);
        return true;
      }
      return false;
    }

    /**
     * `checkCollision`: boundaries are tried first, in registration order,
     * then colliders in registration order; the first overlapping one is
     * reported.
     */
    method CheckCollision(position: Vec3, size: Size) returns (r: CollisionResult)
      ensures r == NoCollision <==> !Collides(position, size)
      ensures r.BoundaryHit? ==> exists i :: FirstBlockingBoundary(i, BoxAround(position, size)) && boundaries[i] == r.boundary
      ensures r.ColliderHit? ==> exists j :: FirstBlockingCollider(j, BoxAround(position, size)) && colliders[j] == r.collider
    {
      var box := BoxAround(position, size);
      var i := 0;
      while i < |boundaries|
        invariant 0 <= i <= |boundaries|
        invariant forall k :: 0 <= k < i ==> !BoundaryBlocks(boundaries[k], box)
      {
        if Intersects(box, boundaries[i].Box()) {
          return BoundaryHit(boundaries[i]);
        }
        i := i + 1;
      }
      var j := 0;
      while j < |colliders|
        invariant 0 <= j <= |colliders|
        invariant forall k :: 0 <= k < j ==> !ColliderBlocks(colliders[k], box)
      {
        var c := colliders[j];
        var colliderBox := BoxAround(c.owner.Position(), c.size);
        if Intersects(box, colliderBox) {
          return ColliderHit(c);
        }
        j := j + 1;
      }
      return NoCollision;
    }
  }

  /**
   * A collider follows its scene object: a query that overlaps the object's
   * collider stops overlapping it once the object has moved away, with no
   * re-registration in between.
   */
  method MovedOwnerIsSeenWithoutReregistering() returns (hitBefore: bool, hitAfter: bool)
    ensures hitBefore && !hitAfter
  {
    var system := new CollisionSystem();
    var crate := new Owner(Zero);
    var c := system.AddCollider(crate, Size(2.0, 2.0, 2.0), "crate");
    var query := Vec3(0.5, 0.0, 0.0);
    var r := system.CheckCollision(query, Size(1.0, 1.0, 1.0));
    assert system.colliders == [c] && system.boundaries == [];
    assert ColliderBlocks(system.colliders[0], BoxAround(query, Size(1.0, 1.0, 1.0)));
    hitBefore := r != NoCollision;
    crate.MoveTo(Vec3(10.0, 0.0, 0.0));
    r := system.CheckCollision(query, Size(1.0, 1.0, 1.0));
    assert !ColliderBlocks(system.colliders[0], BoxAround(query, Size(1.0, 1.0, 1.0)));
    hitAfter := r != NoCollision;
  }
}
