/**
 * Grass patches, crates and other destructibles: a sword-hit radius that
 * depends on the type tag, and a destroyed flag that only ever goes from
 * false to true.
 */
module Destructible {
  import opened Geometry

  const GrassType: string := "grass"
  const CrateType: string := "crate"
  /** `checkSwordHit`'s default sword radius. */
  const DefaultSwordRadius: real := 3.0
  /** Particles spawned by one destruction effect. */
  const BurstParticles: nat := 8

  /** The hit range for a type tag: grass is 2 easier to hit, crates 1, anything else not at all. */
  function HitRange(typeName: string, swordRadius: real): (range: real)
    ensures swordRadius <= range <= swordRadius + 2.0
    ensures range == swordRadius + 2.0 <==> typeName == GrassType
  {
    if typeName == GrassType then swordRadius + 2.0
    else if typeName == CrateType then swordRadius + 1.0
    else swordRadius
  }

  class DestructibleObject {
    const typeName: string
    /** The scene object built by `createMesh`; the base class builds none. */
    const mesh: Owner?
    /** `setupBoundingBox` ran with a mesh present. */
    const hasBoundingBox: bool
    var isDestroyed: bool
    /** The mesh is part of the scene. */
    var inScene: bool
    /** Particles added to the scene by destruction effects so far. */
    var particles: nat

    /** The bounding box is set up exactly when there is a mesh. */
    predicate Valid() {
      hasBoundingBox <==> mesh != null
    }

    /** A base destructible with the given tag: no mesh, hence no bounding box. */
    constructor Plain(typeName: string)
      ensures Valid() && this.typeName == typeName && mesh == null
      ensures !isDestroyed && !inScene && particles == 0
    {
      this.typeName := typeName;
      mesh := null;
      hasBoundingBox := false;
      isDestroyed := false;
      inScene := false;
      particles := 0;
    }

    /** `GrassPatch`: a blade cluster grouped at the given position. */
    constructor GrassPatch(position: Vec3)
      ensures Valid() && typeName == GrassType
      ensures mesh != null && fresh(mesh) && mesh.Position() == position
      ensures !isDestroyed && inScene && particles == 0
    {
      typeName := GrassType;
      mesh := new Owner(position);
      hasBoundingBox := true;
      isDestroyed := false;
      inScene := true;
      particles := 0;
    }

    /** `WoodenCrate`: a 3-cube sitting on the ground, its centre at height 1.5. */
    constructor WoodenCrate(position: Vec3)
      ensures Valid() && typeName == CrateType
      ensures mesh != null && fresh(mesh) && mesh.Position() == Vec3(position.x, 1.5, position.z)
      ensures !isDestroyed && inScene && particles == 0
    {
      typeName := CrateType;
      mesh := new Owner(Vec3(position.x, 1.5, position.z));
      hasBoundingBox := true;
      isDestroyed := false;
      inScene := true;
      particles := 0;
    }

    /**
     * `checkSwordHit`: a live object with a bounding box is hit when its
     * mesh is strictly closer to the sword than the hit range for its type.
     */
    function CheckSwordHit(swordPosition: Vec3, swordRadius: real): bool
      requires Valid()
      reads this, mesh
    {
      !isDestroyed && hasBoundingBox &&
      WithinDistance(Dist2(mesh.Position(), swordPosition), HitRange(typeName, swordRadius))
    }

    /**
     * `destroy`: the first call sets the flag, spawns one particle burst
     * and takes the mesh out of the scene; later calls change nothing.  The
     * burst is placed at the mesh, so the source needs a mesh here.
     */
    method Destroy()
      requires mesh != null || isDestroyed
      modifies this
      ensures isDestroyed
      ensures Valid() ==> forall p, r :: !CheckSwordHit(p, r)
      ensures old(isDestroyed) ==> inScene == old(inScene) && particles == old(particles)
      ensures !old(isDestroyed) ==> !inScene && particles == old(particles) + BurstParticles
    {
      if isDestroyed {
        return;
      }
      isDestroyed := true;
      particles := particles + BurstParticles;
      if mesh != null {
        inScene := false;
      }
    }

    /** `dispose`: the mesh leaves the scene; nothing else changes. */
    method Dispose()
      modifies this
      ensures mesh != null ==> !inScene
      ensures mesh == null ==> inScene == old(inScene)
      ensures isDestroyed == old(isDestroyed) && particles == old(particles)
    {
      if mesh != null {
        inScene := false;
      }
    }
  }

  /** `checkSwordHit` is the distance test `distanceTo(sword) < hitRange`, and never hits a destroyed object. */
  lemma CheckSwordHitIsDistanceTest(o: DestructibleObject, swordPosition: Vec3, swordRadius: real, sqrt: real -> real)
    requires IsSqrt(sqrt) && o.Valid()
    ensures o.CheckSwordHit(swordPosition, swordRadius) <==>
      && !o.isDestroyed && o.mesh != null
      && Length(Sub(o.mesh.Position(), swordPosition), sqrt) < HitRange(o.typeName, swordRadius)
  {
    if o.mesh != null {
      var d := Sub(o.mesh.Position(), swordPosition);
      Len2NonNegative(d);
      SqrtComparison(Len2(d), HitRange(o.typeName, swordRadius), sqrt);
    }
  }

  /** A longer reach hits everything a shorter one does. */
  lemma WiderRangeHitsMore(d2: real, r1: real, r2: real)
    requires WithinDistance(d2, r1) && r1 <= r2
    ensures WithinDistance(d2, r2)
  {
    SquareLeq(r1, r2);
  }

  /**
   * Grass is the easiest type to hit: whatever sword stroke hits a crate or
   * an untyped object at some spot would also hit grass there.
   */
  lemma GrassIsEasiestToHit(d2: real, typeName: string, swordRadius: real)
    requires WithinDistance(d2, HitRange(typeName, swordRadius))
    ensures WithinDistance(d2, HitRange(GrassType, swordRadius))
  {
    WiderRangeHitsMore(d2, HitRange(typeName, swordRadius), HitRange(GrassType, swordRadius));
  }

  /** With the default sword radius of 3, grass is hit within 5, crates within 4, anything else within 3. */
  lemma DefaultHitRanges(typeName: string)
    ensures HitRange(GrassType, DefaultSwordRadius) == 5.0
    ensures HitRange(CrateType, DefaultSwordRadius) == 4.0
    ensures typeName != GrassType && typeName != CrateType ==> HitRange(typeName, DefaultSwordRadius) == 3.0
  {
  }
}
