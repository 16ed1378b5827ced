/**
 * The unified world: five circular area zones, the clearance test that
 * keeps props away from the five signposts, the placement of destructibles,
 * pushables and decorations, the filtered list of live destructibles, the
 * walls at 180 from the origin, the per-frame pushable update and disposal.
 */
module Unified {
  import opened Geometry
  import opened Collision
  import opened Scenery
  import opened Wrappers
  import opened Destructible
  import opened Pushable
  import Interactive
  import AreaNotify

  /** An entry of `setupAreaZones`: display name, area tag, and a circle on the ground. */
  datatype AreaZone = AreaZone(name: string, area: string, center: Vec3, radius: real)

  const WorldSize: real := 180.0

  /** The zones in the order `getCurrentArea` tries them. */
  const Zones: seq<AreaZone> := [
    AreaZone("Portfolio Crossroads", "hub", Vec3(0.0, 0.0, 0.0), 35.0),
    AreaZone("About Me Meadow", "about", Vec3(0.0, 0.0, 100.0), 45.0),
    AreaZone("Experience Village", "experience", Vec3(100.0, 0.0, 0.0), 40.0),
    AreaZone("Projects Portal", "projects", Vec3(0.0, 0.0, -100.0), 35.0),
    AreaZone("Danger Dungeon", "danger", Vec3(-100.0, 0.0, 0.0), 20.0)
  ]

  /** The points `isPositionClear` keeps props away from: the five signposts. */
  const ImportantPositions: seq<Vec3> := [
    Vec3(0.0, 0.0, 0.0), Vec3(0.0, 0.0, 80.0), Vec3(80.0, 0.0, 0.0), Vec3(0.0, 0.0, -80.0), Vec3(-80.0, 0.0, 0.0)
  ]

  const CratePositions: seq<Vec3> := [
    Vec3(15.0, 0.0, 15.0), Vec3(-15.0, 0.0, 15.0), Vec3(15.0, 0.0, -15.0), Vec3(-20.0, 0.0, -10.0),
    Vec3(-25.0, 0.0, 120.0), Vec3(20.0, 0.0, 115.0), Vec3(-10.0, 0.0, 80.0),
    Vec3(120.0, 0.0, 15.0), Vec3(85.0, 0.0, -20.0),
    Vec3(-15.0, 0.0, -120.0), Vec3(25.0, 0.0, -85.0)
  ]

  const LogPositions: seq<Vec3> := [
    Vec3(-30.0, 0.0, 105.0), Vec3(35.0, 0.0, 125.0), Vec3(-15.0, 0.0, 90.0), Vec3(20.0, 0.0, 85.0),
    Vec3(-25.0, 0.0, 25.0), Vec3(15.0, 0.0, -20.0)
  ]

  const RockPositions: seq<Vec3> := [
    Vec3(25.0, 0.0, 110.0), Vec3(-40.0, 0.0, 115.0), Vec3(10.0, 0.0, 75.0), Vec3(-35.0, 0.0, 0.0), Vec3(30.0, 0.0, -10.0)
  ]

  const TreePositions: seq<Vec3> := [
    Vec3(-45.0, 0.0, 135.0), Vec3(-35.0, 0.0, 140.0), Vec3(40.0, 0.0, 140.0), Vec3(45.0, 0.0, 125.0),
    Vec3(-50.0, 0.0, 95.0), Vec3(50.0, 0.0, 100.0), Vec3(-50.0, 0.0, 75.0), Vec3(50.0, 0.0, 80.0),
    Vec3(-35.0, 0.0, 35.0), Vec3(40.0, 0.0, 40.0), Vec3(-30.0, 0.0, -30.0), Vec3(35.0, 0.0, -35.0)
  ]

  const BoulderPositions: seq<Vec3> := [
    Vec3(-20.0, 0.0, 140.0), Vec3(30.0, 0.0, 130.0), Vec3(-45.0, 0.0, 110.0), Vec3(45.0, 0.0, 90.0),
    Vec3(-40.0, 0.0, 45.0), Vec3(40.0, 0.0, -25.0)
  ]

  const BushPositions: seq<Vec3> := [
    Vec3(-25.0, 0.0, 115.0), Vec3(15.0, 0.0, 125.0), Vec3(-35.0, 0.0, 95.0), Vec3(40.0, 0.0, 105.0),
    Vec3(-15.0, 0.0, 75.0), Vec3(20.0, 0.0, 70.0),
    Vec3(-20.0, 0.0, 20.0), Vec3(25.0, 0.0, 15.0), Vec3(-15.0, 0.0, -15.0), Vec3(20.0, 0.0, -25.0)
  ]

  const FlowerPatchPositions: seq<Vec3> := [
    Vec3(-10.0, 0.0, 120.0), Vec3(30.0, 0.0, 115.0), Vec3(-30.0, 0.0, 100.0), Vec3(35.0, 0.0, 95.0),
    Vec3(-20.0, 0.0, 80.0), Vec3(15.0, 0.0, 85.0),
    Vec3(-10.0, 0.0, 10.0), Vec3(25.0, 0.0, 5.0), Vec3(-25.0, 0.0, -5.0), Vec3(15.0, 0.0, -20.0)
  ]

  /** An entry of `createInteractiveElements`: the element's class and its position on the ground. */
  datatype ElementSpec = ElementSpec(kind: Interactive.ElementKind, position: Vec3)

  /** The About Me Meadow elements, in the order they are created; their text content is not modelled. */
  const AboutMeElements: seq<ElementSpec> := [
    ElementSpec(Interactive.Flower, Vec3(-20.0, 0.0, 120.0)),
    ElementSpec(Interactive.Crystal, Vec3(15.0, 0.0, 110.0)),
    ElementSpec(Interactive.Rock, Vec3(-10.0, 0.0, 85.0)),
    ElementSpec(Interactive.Flower, Vec3(25.0, 0.0, 95.0)),
    ElementSpec(Interactive.Crystal, Vec3(-25.0, 0.0, 105.0))
  ]

  /** Clearances that gate placement. */
  const GrassClearance: real := 8.0
  const CrateClearance: real := 3.0
  const LogClearance: real := 6.0
  const RockClearance: real := 5.0
  const BushClearance: real := 4.0
  const FlowerPatchClearance: real := 3.0

  /** The decorations, kept as values: their own meshes and colliders are not part of this model. */
  datatype DecorKind = Tree | LargeBoulder | Bush | FlowerPatch
  datatype Decoration = Decoration(kind: DecorKind, position: Vec3)

  function Decorations(kind: DecorKind, ps: seq<Vec3>): (ds: seq<Decoration>)
    ensures |ds| == |ps|
    ensures forall k :: 0 <= k < |ps| ==> ds[k] == Decoration(kind, ps[k])
  {
    seq(|ps|, k requires 0 <= k < |ps| => Decoration(kind, ps[k]))
  }

  // ------------------------------------------------------------------
  // Area zones

  /** The player is strictly closer to the zone's centre, on the ground, than its radius. */
  predicate InZone(z: AreaZone, p: Vec3) {
    WithinDistance(Dist2XZ(p, z.center), z.radius)
  }

  /** Zone `i` contains `p` and no earlier zone does. */
  predicate FirstZone(zs: seq<AreaZone>, i: int, p: Vec3) {
    && 0 <= i < |zs|
    && InZone(zs[i], p)
    && forall k :: 0 <= k < i ==> !InZone(zs[k], p)
  }

  /** `InZone` is the source's test `distance < radius`. */
  lemma InZoneIsDistanceTest(z: AreaZone, p: Vec3, sqrt: real -> real)
    requires IsSqrt(sqrt)
    ensures InZone(z, p) <==> sqrt(Dist2XZ(p, z.center)) < z.radius
  {
    SquareNonNegative(p.x - z.center.x);
    SquareNonNegative(p.z - z.center.z);
    SqrtComparison(Dist2XZ(p, z.center), z.radius, sqrt);
  }

  /** No point is in two zones, so the first zone found is the only one. */
  lemma ZonesAreDisjoint(p: Vec3, i: int, j: int)
    requires 0 <= i < |Zones| && 0 <= j < |Zones| && i != j
    ensures !(InZone(Zones[i], p) && InZone(Zones[j], p))
  {
    if InZone(Zones[i], p) && InZone(Zones[j], p) {
      InsideCircleXZ(p, Zones[i].center, Zones[i].radius);
      InsideCircleXZ(p, Zones[j].center, Zones[j].radius);
    }
  }

  /** Every zone's display name, the key the banner looks up, has its own description. */
  lemma EveryZoneHasADescription(i: int)
    requires 0 <= i < |Zones|
    ensures Zones[i].name in AreaNotify.Descriptions
    ensures AreaNotify.AreaDescription(Zones[i].name) != AreaNotify.DefaultDescription
  {
  }

  // ------------------------------------------------------------------
  // Clearance

  /** `isPositionClear(p, minDistance)`: no important point is strictly closer on the ground than `minDistance`. */
  predicate Clear(p: Vec3, minDistance: real) {
    forall i :: 0 <= i < |ImportantPositions| ==> !WithinDistance(Dist2XZ(p, ImportantPositions[i]), minDistance)
  }

  /**
   * `Clear` is the source's test: it checks each important point `q` with
   * `!WithinDistance`, which is `distance >= minDistance` for the distance
   * `Math.sqrt` gives.
   */
  lemma ClearIsDistanceTest(p: Vec3, q: Vec3, minDistance: real, sqrt: real -> real)
    requires IsSqrt(sqrt)
    ensures !WithinDistance(Dist2XZ(p, q), minDistance) <==> minDistance <= sqrt(Dist2XZ(p, q))
  {
    SquareNonNegative(p.x - q.x);
    SquareNonNegative(p.z - q.z);
    SqrtComparison(Dist2XZ(p, q), minDistance, sqrt);
  }

  /** The candidates that pass the clearance test, in candidate order. */
  function ClearPositions(ps: seq<Vec3>, minDistance: real): (r: seq<Vec3>)
    ensures |r| <= |ps|
    decreases |ps|
  {
    if ps == [] then []
    else ClearPositions(ps[..|ps| - 1], minDistance) + (if Clear(ps[|ps| - 1], minDistance) then [ps[|ps| - 1]] else [])
  }

  /** Only clear candidates are kept. */
  lemma {:induction false} ClearPositionsAreClear(ps: seq<Vec3>, minDistance: real)
    ensures forall k :: 0 <= k < |ClearPositions(ps, minDistance)| ==>
      ClearPositions(ps, minDistance)[k] in ps && Clear(ClearPositions(ps, minDistance)[k], minDistance)
    decreases |ps|
  {
    if ps != [] {
      var init := ps[..|ps| - 1];
      ClearPositionsAreClear(init, minDistance);
      var r := ClearPositions(ps, minDistance);
      forall k | 0 <= k < |r|
        ensures r[k] in ps && Clear(r[k], minDistance)
      {
        if k < |ClearPositions(init, minDistance)| {
          assert r[k] == ClearPositions(init, minDistance)[k];
          assert r[k] in init;
        }
      }
    }
  }

  /** No clear candidate is dropped. */
  lemma {:induction false} ClearPositionsKeepsEveryClearCandidate(ps: seq<Vec3>, minDistance: real, p: Vec3)
    requires p in ps && Clear(p, minDistance)
    ensures p in ClearPositions(ps, minDistance)
    decreases |ps|
  {
    if p != ps[|ps| - 1] {
      assert ps == ps[..|ps| - 1] + [ps[|ps| - 1]];
      ClearPositionsKeepsEveryClearCandidate(ps[..|ps| - 1], minDistance, p);
    }
  }

  /** When every candidate is clear, all of them are placed, in order. */
  lemma {:induction false} AllClearKeepsAll(ps: seq<Vec3>, minDistance: real)
    requires forall i :: 0 <= i < |ps| ==> Clear(ps[i], minDistance)
    ensures ClearPositions(ps, minDistance) == ps
    decreases |ps|
  {
    if ps != [] {
      AllClearKeepsAll(ps[..|ps| - 1], minDistance);
      assert ps == ps[..|ps| - 1] + [ps[|ps| - 1]];
    }
  }

  /** Every fixed crate position passes its clearance, so the gate never drops one. */
  lemma CratePositionsAreAllClear()
    ensures ClearPositions(CratePositions, CrateClearance) == CratePositions
  {
    AllClearKeepsAll(CratePositions, CrateClearance);
  }

  lemma LogPositionsAreAllClear()
    ensures ClearPositions(LogPositions, LogClearance) == LogPositions
  {
    AllClearKeepsAll(LogPositions, LogClearance);
  }

  lemma RockPositionsAreAllClear()
    ensures ClearPositions(RockPositions, RockClearance) == RockPositions
  {
    AllClearKeepsAll(RockPositions, RockClearance);
  }

  lemma BushPositionsAreAllClear()
    ensures ClearPositions(BushPositions, BushClearance) == BushPositions
  {
    AllClearKeepsAll(BushPositions, BushClearance);
  }

  lemma FlowerPatchPositionsAreAllClear()
    ensures ClearPositions(FlowerPatchPositions, FlowerPatchClearance) == FlowerPatchPositions
  {
    AllClearKeepsAll(FlowerPatchPositions, FlowerPatchClearance);
  }

  /** Extending the candidates by one keeps the new candidate exactly when it is clear. */
  lemma ClearPositionsStep(ps: seq<Vec3>, minDistance: real, i: int)
    requires 0 <= i < |ps|
    ensures ClearPositions(ps[..i + 1], minDistance) ==
      ClearPositions(ps[..i], minDistance) + (if Clear(ps[i], minDistance) then [ps[i]] else [])
  {
    assert ps[..i + 1][..i] == ps[..i];
  }

  /** Extending the candidates by one adds one decoration exactly when the new candidate is clear. */
  lemma ClearDecorationsStep(kind: DecorKind, ps: seq<Vec3>, minDistance: real, i: int)
    requires 0 <= i < |ps|
    ensures Decorations(kind, ClearPositions(ps[..i + 1], minDistance)) ==
      Decorations(kind, ClearPositions(ps[..i], minDistance)) + (if Clear(ps[i], minDistance) then [Decoration(kind, ps[i])] else [])
  {
    assert ps[..i + 1][..i] == ps[..i];
  }

  /** Lifting ground positions to the height of a mesh centre. */
  function AtHeight(ps: seq<Vec3>, h: real): (r: seq<Vec3>)
    ensures |r| == |ps|
    ensures forall k :: 0 <= k < |ps| ==> r[k] == Vec3(ps[k].x, h, ps[k].z)
  {
    seq(|ps|, k requires 0 <= k < |ps| => Vec3(ps[k].x, h, ps[k].z))
  }

  /** The clearance test looks at the ground plane only, so a placed mesh is as clear as its ground position. */
  lemma {:induction false} PlacedMeshesAreClear(ps: seq<Vec3>, minDistance: real, h: real)
    ensures var r := AtHeight(ClearPositions(ps, minDistance), h);
      forall k :: 0 <= k < |r| ==> Clear(r[k], minDistance)
  {
    var c := ClearPositions(ps, minDistance);
    ClearPositionsAreClear(ps, minDistance);
    forall k | 0 <= k < |c|
      ensures Clear(AtHeight(c, h)[k], minDistance)
    {
      assert Clear(c[k], minDistance);
      ClearIgnoresHeight(c[k], h, minDistance);
    }
  }

  /** Raising or lowering a point does not change whether it is clear. */
  lemma ClearIgnoresHeight(p: Vec3, h: real, minDistance: real)
    ensures Clear(Vec3(p.x, h, p.z), minDistance) <==> Clear(p, minDistance)
  {
    forall i | 0 <= i < |ImportantPositions|
      ensures Dist2XZ(Vec3(p.x, h, p.z), ImportantPositions[i]) == Dist2XZ(p, ImportantPositions[i])
    {
    }
  }

  // ------------------------------------------------------------------
  // Live destructibles

  /** `destructibles.filter(obj => !obj.isDestroyed)`. */
  function Live(ds: seq<DestructibleObject>): (r: seq<DestructibleObject>)
    reads ds
    ensures |r| <= |ds|
    ensures forall i :: 0 <= i < |r| ==> r[i] in ds && !r[i].isDestroyed
    ensures forall i :: 0 <= i < |ds| && !ds[i].isDestroyed ==> ds[i] in r
    decreases |ds|
  {
    if ds == [] then []
    else Live(ds[..|ds| - 1]) + (if ds[|ds| - 1].isDestroyed then [] else [ds[|ds| - 1]])
  }

  /** The filter keeps order: filtering a concatenation concatenates the filtered parts. */
  lemma {:induction false} LiveOfConcat(a: seq<DestructibleObject>, b: seq<DestructibleObject>)
    ensures Live(a + b) == Live(a) + Live(b)
    decreases |b|
  {
    if b == [] {
      assert a + b == a;
    } else {
      assert (a + b)[..|a + b| - 1] == a + b[..|b| - 1];
      LiveOfConcat(a, b[..|b| - 1]);
    }
  }

  /** With nothing destroyed, the filter returns the list unchanged. */
  lemma {:induction false} LiveOfIntact(ds: seq<DestructibleObject>)
    requires forall i :: 0 <= i < |ds| ==> !ds[i].isDestroyed
    ensures Live(ds) == ds
    decreases |ds|
  {
    if ds != [] {
      LiveOfIntact(ds[..|ds| - 1]);
    }
  }

  /** `ds` are live objects of the given type whose meshes stand at `meshPositions`. */
  predicate DestructiblesAt(ds: seq<DestructibleObject>, typeName: string, meshPositions: seq<Vec3>)
    reads ds, set k | 0 <= k < |ds| && ds[k].mesh != null :: ds[k].mesh
  {
    && |ds| == |meshPositions|
    && forall k :: 0 <= k < |ds| ==>
         && ds[k].Valid() && ds[k].typeName == typeName && !ds[k].isDestroyed && ds[k].inScene
         && ds[k].mesh != null && ds[k].mesh.Position() == meshPositions[k]
  }

  /**
   * `ps` are fresh-state pushables of `kind` in `system`, each at rest with
   * its collider set up and its mesh at the height of its kind above the
   * given ground positions.
   */
  predicate PushablesAt(ps: seq<PushableObject>, kind: PushableKind, system: CollisionSystem, groundPositions: seq<Vec3>)
    requires !kind.Plain?
    reads ps, set k | 0 <= k < |ps| && ps[k].mesh != null :: ps[k].mesh
  {
    && |ps| == |groundPositions|
    && forall k :: 0 <= k < |ps| ==>
         && ps[k].kind == kind && ps[k].system == system && ps[k].Valid() && ps[k].velocity == Zero
         && ps[k].mesh != null && ps[k].mesh.Position() == Vec3(groundPositions[k].x, MeshHeight(kind), groundPositions[k].z)
  }

  /** The colliders of the pushables `ps`, in list order. */
  function CollidersOf(ps: seq<PushableObject>): (cs: seq<Collider?>)
    ensures |cs| == |ps|
  {
    if ps == [] then [] else CollidersOf(ps[..|ps| - 1]) + [ps[|ps| - 1].collider]
  }

  lemma {:induction false} CollidersOfConcat(a: seq<PushableObject>, b: seq<PushableObject>)
    ensures CollidersOf(a + b) == CollidersOf(a) + CollidersOf(b)
    decreases |b|
  {
    if b != [] {
      var b' := b[..|b| - 1];
      assert (a + b)[..|a + b| - 1] == a + b';
      CollidersOfConcat(a, b');
    } else {
      assert a + b == a;
    }
  }

  /** Colliders registered for pushables appended in two rounds are those of the whole suffix. */
  lemma CollidersAppended(c0: seq<Collider>, cs: seq<Collider>, c1: seq<Collider>,
                          ps: seq<PushableObject>, added: seq<PushableObject>, start: nat)
    requires start <= |ps|
    requires cs == c0 + CollidersOf(ps[start..]) && c1 == cs + CollidersOf(added)
    ensures c1 == c0 + CollidersOf((ps + added)[start..])
  {
    assert (ps + added)[start..] == ps[start..] + added;
    CollidersOfConcat(ps[start..], added);
  }

  /** Placed pushables can be listed one after another. */
  lemma PushablesAtSnoc(ps: seq<PushableObject>, p: PushableObject, kind: PushableKind, system: CollisionSystem,
                        gs: seq<Vec3>, g: Vec3)
    requires !kind.Plain?
    requires PushablesAt(ps, kind, system, gs) && PushablesAt([p], kind, system, [g])
    ensures PushablesAt(ps + [p], kind, system, gs + [g])
  {
    assert [p][0] == p;
  }

  /** `es` are inactive interactive elements of the kinds and at the positions `specs` lists. */
  predicate ElementsAt(es: seq<Interactive.InteractiveElement>, specs: seq<ElementSpec>)
    reads es
  {
    && |es| == |specs|
    && forall k :: 0 <= k < |es| ==>
         es[k].kind == specs[k].kind && es[k].position == specs[k].position && !es[k].isActive
  }

  /** The player is strictly within an element's interaction range. */
  predicate InRange(e: Interactive.InteractiveElement, playerPosition: Vec3) {
    WithinDistance(Dist2(playerPosition, e.position), Interactive.InteractionRange)
  }

  /** One pushable's frame, seen only through the outcomes it allows. */
  method PushableFrame(p: PushableObject, dt: real)
    requires p.mesh != null
    modifies p, p.mesh
    ensures OneFrame(old(p.velocity), old(p.mesh.Position()), p.velocity, p.mesh.Position(), dt)
  {
    p.UpdateIgnoringOwnCollider(dt);
  }

  /**
   * The pushables `ps` are valid, belong to `system`, have meshes and
   * colliders listed in `cs`, and no two share an object or a mesh.  Only
   * constant fields are involved, so no heap is read.
   */
  predicate Registered(ps: seq<PushableObject>, system: CollisionSystem, cs: seq<Collider>) {
    && (forall i :: 0 <= i < |ps| ==>
          ps[i].Valid() && ps[i].system == system && ps[i].mesh != null && ps[i].collider in cs)
    && (forall i, j :: 0 <= i < j < |ps| ==> ps[i] != ps[j] && ps[i].mesh != ps[j].mesh)
  }

  /** Registering more colliders keeps every pushable registered. */
  lemma RegisteredGrow(ps: seq<PushableObject>, system: CollisionSystem, cs: seq<Collider>, more: seq<Collider>)
    requires Registered(ps, system, cs)
    ensures Registered(ps, system, cs + more)
  {
    forall i | 0 <= i < |ps|
      ensures ps[i].collider in cs + more
    {
      assert ps[i].collider in cs;
    }
  }

  /** A new pushable with its own object, mesh and registered collider can join the list. */
  lemma RegisteredSnoc(ps: seq<PushableObject>, p: PushableObject, system: CollisionSystem, cs: seq<Collider>)
    requires Registered(ps, system, cs)
    requires p.Valid() && p.system == system && p.mesh != null && p.collider in cs
    requires forall k :: 0 <= k < |ps| ==> ps[k] != p && ps[k].mesh != p.mesh
    ensures Registered(ps + [p], system, cs)
  {
    var r := ps + [p];
    forall i, j | 0 <= i < j < |r|
      ensures r[i] != r[j] && r[i].mesh != r[j].mesh
    {
      if j == |ps| {
        assert r[i] == ps[i] && r[j] == p;
      } else {
        assert r[i] == ps[i] && r[j] == ps[j];
      }
    }
  }

  class UnifiedWorld {
    const system: CollisionSystem
    var areas: seq<AreaZone>
    var destructibles: seq<DestructibleObject>
    var interactiveElements: seq<Interactive.InteractiveElement>
    var pushableObjects: seq<PushableObject>
    var decorativeObjects: seq<Decoration>
    /** The terrain, path and building meshes; the scenery builders that fill it are not modelled. */
    var worldObjects: seq<Owner>

    /**
     * Every pushable has a mesh and a collider registered in this world's
     * collision system, and no two pushables share an object or a mesh.
     */
    predicate PushablesRegistered()
      reads this, system
    {
      Registered(pushableObjects, system, system.colliders)
    }

    /** The meshes of the pushables: what `updatePushableObjects` moves. */
    function PushableMeshes(): set<Owner?>
      reads this, pushableObjects
    {
      set i | 0 <= i < |pushableObjects| :: pushableObjects[i].mesh
    }

    /** The collections start empty. */
    constructor (system: CollisionSystem)
      ensures this.system == system
      ensures areas == [] && destructibles == [] && interactiveElements == []
      ensures pushableObjects == [] && decorativeObjects == [] && worldObjects == []
    {
      this.system := system;
      areas := [];
      destructibles := [];
      interactiveElements := [];
      pushableObjects := [];
      decorativeObjects := [];
      worldObjects := [];
    }

    /** `createWorldBoundaries`: the four walls at 180. */
    method CreateWorldBoundaries()
      modifies system
      ensures system.boundaries == old(system.boundaries) + Walls(WorldSize)
      ensures system.colliders == old(system.colliders)
    {
      AddWalls(system, WorldSize);
    }

    /** `setupAreaZones`. */
    method SetupAreaZones()
      modifies this`areas
      ensures areas == Zones
    {
      areas := Zones;
    }

    /** `getCurrentArea`: the first zone in list order that contains the player, or none. */
    method GetCurrentArea(playerPosition: Vec3) returns (r: Option<AreaZone>)
      ensures r == None <==> forall i :: 0 <= i < |areas| ==> !InZone(areas[i], playerPosition)
      ensures r.Some? ==> exists i :: FirstZone(areas, i, playerPosition) && r.value == areas[i]
    {
      var i := 0;
      while i < |areas|
        invariant 0 <= i <= |areas|
        invariant forall k :: 0 <= k < i ==> !InZone(areas[k], playerPosition)
      {
        if WithinDistance(Dist2XZ(playerPosition, areas[i].center), areas[i].radius) {
          assert FirstZone(areas, i, playerPosition);
          return Some(areas[i]);
        }
        i := i + 1;
      }
      return None;
    }

    /** `isPositionClear`: scans the important points and answers false at the first one too close. */
    method IsPositionClear(position: Vec3, minDistance: real) returns (clear: bool)
      ensures clear <==> Clear(position, minDistance)
    {
      var i := 0;
      while i < |ImportantPositions|
        invariant 0 <= i <= |ImportantPositions|
        invariant forall k :: 0 <= k < i ==> !WithinDistance(Dist2XZ(position, ImportantPositions[k]), minDistance)
      {
        if WithinDistance(Dist2XZ(position, ImportantPositions[i]), minDistance) {
          return false;
        }
        i := i + 1;
      }
      return true;
    }

    /** `createDestructibles`: the grass patches, then the crates. */
    method CreateDestructibles(grassCandidates: seq<Vec3>)
      modifies this`destructibles
      ensures var n, grass := |old(destructibles)|, |ClearPositions(grassCandidates, GrassClearance)|;
        && |destructibles| == n + grass + |ClearPositions(CratePositions, CrateClearance)|
        && destructibles[..n] == old(destructibles)
        && DestructiblesAt(destructibles[n..n + grass], GrassType, ClearPositions(grassCandidates, GrassClearance))
        && DestructiblesAt(destructibles[n + grass..], CrateType, AtHeight(ClearPositions(CratePositions, CrateClearance), 1.5))
    {
      PlaceGrassAndCrates(grassCandidates, CratePositions);
    }

    /** The two placement steps of `createDestructibles`, over the given crate positions. */
    method PlaceGrassAndCrates(grassCandidates: seq<Vec3>, cratePositions: seq<Vec3>)
      modifies this`destructibles
      ensures var n, grass := |old(destructibles)|, |ClearPositions(grassCandidates, GrassClearance)|;
        && |destructibles| == n + grass + |ClearPositions(cratePositions, CrateClearance)|
        && destructibles[..n] == old(destructibles)
        && DestructiblesAt(destructibles[n..n + grass], GrassType, ClearPositions(grassCandidates, GrassClearance))
        && DestructiblesAt(destructibles[n + grass..], CrateType, AtHeight(ClearPositions(cratePositions, CrateClearance), 1.5))
    {
      ghost var n := |destructibles|;
      ScatterGrassPatches(grassCandidates);
      ghost var mid := destructibles;
      PlaceCratesAt(cratePositions);
      assert destructibles[..|mid|] == mid;
      assert destructibles[n..|mid|] == mid[n..];
      assert destructibles[..n] == mid[..n];
    }

    /**
     * `scatterGrassPatches`, with the random candidate positions as input:
     * a grass patch is appended for every candidate clear by 8, in order.
     */
    method ScatterGrassPatches(candidates: seq<Vec3>)
      modifies this`destructibles
      ensures |old(destructibles)| <= |destructibles|
      ensures destructibles[..|old(destructibles)|] == old(destructibles)
      ensures DestructiblesAt(destructibles[|old(destructibles)|..], GrassType, ClearPositions(candidates, GrassClearance))
    {
      var start := |destructibles|;
      var i := 0;
      while i < |candidates|
        invariant 0 <= i <= |candidates|
        invariant start <= |destructibles|
        invariant destructibles[..start] == old(destructibles)
        invariant |destructibles| - start == |ClearPositions(candidates[..i], GrassClearance)|
        invariant forall k :: start <= k < |destructibles| ==>
          && destructibles[k].Valid() && destructibles[k].typeName == GrassType
          && !destructibles[k].isDestroyed && destructibles[k].inScene && destructibles[k].mesh != null
          && destructibles[k].mesh.Position() == ClearPositions(candidates[..i], GrassClearance)[k - start]
      {
        ClearPositionsStep(candidates, GrassClearance, i);
        var clear := IsPositionClear(candidates[i], GrassClearance);
        if clear {
          var grass := new DestructibleObject.GrassPatch(candidates[i]);
          destructibles := destructibles + [grass];
        }
        i := i + 1;
      }
      assert candidates[..i] == candidates;
    }

    /** `placeCrates`: a crate for every fixed crate position clear by 3, in order. */
    method PlaceCrates()
      modifies this`destructibles
      ensures |old(destructibles)| <= |destructibles|
      ensures destructibles[..|old(destructibles)|] == old(destructibles)
      ensures DestructiblesAt(destructibles[|old(destructibles)|..], CrateType, AtHeight(ClearPositions(CratePositions, CrateClearance), 1.5))
    {
      PlaceCratesAt(CratePositions);
    }

    /** The loop of `placeCrates`, over the given positions. */
    method PlaceCratesAt(positions: seq<Vec3>)
      modifies this`destructibles
      ensures |old(destructibles)| <= |destructibles|
      ensures destructibles[..|old(destructibles)|] == old(destructibles)
      ensures DestructiblesAt(destructibles[|old(destructibles)|..], CrateType, AtHeight(ClearPositions(positions, CrateClearance), 1.5))
    {
      var start := |destructibles|;
      var i := 0;
      while i < |positions|
        invariant 0 <= i <= |positions|
        invariant start <= |destructibles|
        invariant destructibles[..start] == old(destructibles)
        invariant |destructibles| - start == |ClearPositions(positions[..i], CrateClearance)|
        invariant forall k :: start <= k < |destructibles| ==>
          && destructibles[k].Valid() && destructibles[k].typeName == CrateType
          && !destructibles[k].isDestroyed && destructibles[k].inScene && destructibles[k].mesh != null
          && destructibles[k].mesh.Position() == Vec3(ClearPositions(positions[..i], CrateClearance)[k - start].x, 1.5, ClearPositions(positions[..i], CrateClearance)[k - start].z)
      {
        ClearPositionsStep(positions, CrateClearance, i);
        var clear := IsPositionClear(positions[i], CrateClearance);
        if clear {
          var crate := new DestructibleObject.WoodenCrate(positions[i]);
          destructibles := destructibles + [crate];
        }
        i := i + 1;
      }
      assert positions[..i] == positions;
    }

    /**
     * `createPushableObjects`, with the random name suffixes as input: a log
     * for every fixed log position clear by 6, then a rock for every fixed
     * rock position clear by 5, each registered as a collider.
     */
    method CreatePushableObjects(logSuffixes: seq<string>, rockSuffixes: seq<string>)
      requires |logSuffixes| == |LogPositions| && |rockSuffixes| == |RockPositions|
      modifies this`pushableObjects, system
      ensures var n, logs := |old(pushableObjects)|, |ClearPositions(LogPositions, LogClearance)|;
        && |pushableObjects| == n + logs + |ClearPositions(RockPositions, RockClearance)|
        && pushableObjects[..n] == old(pushableObjects)
        && PushablesAt(pushableObjects[n..n + logs], Log, system, ClearPositions(LogPositions, LogClearance))
        && PushablesAt(pushableObjects[n + logs..], Rock, system, ClearPositions(RockPositions, RockClearance))
      ensures system.colliders == old(system.colliders) + CollidersOf(pushableObjects[|old(pushableObjects)|..])
      ensures old(PushablesRegistered()) ==> PushablesRegistered()
      ensures system.boundaries == old(system.boundaries)
    {
      PlaceLogsAndRocks(LogPositions, RockPositions, logSuffixes, rockSuffixes);
    }

    /** The two placement loops of `createPushableObjects`, over the given positions. */
    method PlaceLogsAndRocks(logPositions: seq<Vec3>, rockPositions: seq<Vec3>, logSuffixes: seq<string>, rockSuffixes: seq<string>)
      requires |logSuffixes| == |logPositions| && |rockSuffixes| == |rockPositions|
      modifies this`pushableObjects, system
      ensures var n, logs := |old(pushableObjects)|, |ClearPositions(logPositions, LogClearance)|;
        && |pushableObjects| == n + logs + |ClearPositions(rockPositions, RockClearance)|
        && pushableObjects[..n] == old(pushableObjects)
        && PushablesAt(pushableObjects[n..n + logs], Log, system, ClearPositions(logPositions, LogClearance))
        && PushablesAt(pushableObjects[n + logs..], Rock, system, ClearPositions(rockPositions, RockClearance))
      ensures system.colliders == old(system.colliders) + CollidersOf(pushableObjects[|old(pushableObjects)|..])
      ensures old(PushablesRegistered()) ==> PushablesRegistered()
      ensures system.boundaries == old(system.boundaries)
    {
      ghost var n := |pushableObjects|;
      PlacePushablesAt(Log, logPositions, LogClearance, logSuffixes);
      ghost var mid, cs := pushableObjects, system.colliders;
      ghost var logs := mid[n..];
      assert PushablesAt(logs, Log, system, ClearPositions(logPositions, LogClearance));
      PlacePushablesAt(Rock, rockPositions, RockClearance, rockSuffixes);
      assert PushablesAt(logs, Log, system, ClearPositions(logPositions, LogClearance));
      assert pushableObjects[..|mid|] == mid;
      assert pushableObjects[n..|mid|] == logs;
      assert pushableObjects[..n] == mid[..n];
      assert pushableObjects == mid + pushableObjects[|mid|..];
      CollidersAppended(old(system.colliders), cs, system.colliders, mid, pushableObjects[|mid|..], n);
    }

    /** One placement loop of `createPushableObjects`, over the given positions. */
    method PlacePushablesAt(kind: PushableKind, positions: seq<Vec3>, clearance: real, suffixes: seq<string>)
      requires !kind.Plain? && |suffixes| == |positions|
      modifies this`pushableObjects, system
      ensures |old(pushableObjects)| <= |pushableObjects|
      ensures pushableObjects[..|old(pushableObjects)|] == old(pushableObjects)
      ensures PushablesAt(pushableObjects[|old(pushableObjects)|..], kind, system, ClearPositions(positions, clearance))
      ensures system.colliders == old(system.colliders) + CollidersOf(pushableObjects[|old(pushableObjects)|..])
      ensures old(PushablesRegistered()) ==> PushablesRegistered()
      ensures system.boundaries == old(system.boundaries)
    {
      var start := |pushableObjects|;
      var i := 0;
      while i < |positions|
        invariant 0 <= i <= |positions|
        invariant start <= |pushableObjects|
        invariant pushableObjects[..start] == old(pushableObjects)
        invariant |pushableObjects| - start == |ClearPositions(positions[..i], clearance)|
        invariant forall k :: start <= k < |pushableObjects| ==>
          && pushableObjects[k].kind == kind && pushableObjects[k].system == system && pushableObjects[k].Valid()
          && pushableObjects[k].velocity == Zero && pushableObjects[k].mesh != null
          && pushableObjects[k].mesh.Position() == Vec3(ClearPositions(positions[..i], clearance)[k - start].x, MeshHeight(kind), ClearPositions(positions[..i], clearance)[k - start].z)
        invariant system.colliders == old(system.colliders) + CollidersOf(pushableObjects[start..])
        invariant old(PushablesRegistered()) ==> PushablesRegistered()
        invariant system.boundaries == old(system.boundaries)
      {
        ClearPositionsStep(positions, clearance, i);
        ghost var before, cs := pushableObjects, system.colliders;
        var placed := PlacePushable(kind, positions[i], clearance, suffixes[i]);
        ghost var added := pushableObjects[|before|..];
        assert pushableObjects == before + added;
        CollidersAppended(old(system.colliders), cs, system.colliders, before, added, start);
        i := i + 1;
      }
      assert positions[..i] == positions;
    }

    /** One step of `createPushableObjects`: a pushable at `position` when it is clear by `clearance`. */
    method PlacePushable(kind: PushableKind, position: Vec3, clearance: real, suffix: string) returns (placed: bool)
      requires !kind.Plain?
      modifies this`pushableObjects, system
      ensures placed <==> Clear(position, clearance)
      ensures !placed ==> pushableObjects == old(pushableObjects)
      ensures placed ==>
        && |pushableObjects| == |old(pushableObjects)| + 1
        && pushableObjects == old(pushableObjects) + [pushableObjects[|old(pushableObjects)|]]
        && PushablesAt([pushableObjects[|old(pushableObjects)|]], kind, system, [position])
      ensures system.colliders == old(system.colliders) + CollidersOf(pushableObjects[|old(pushableObjects)|..])
      ensures old(PushablesRegistered()) ==> PushablesRegistered()
      ensures system.boundaries == old(system.boundaries)
    {
      placed := IsPositionClear(position, clearance);
      if placed {
        ghost var cs := system.colliders;
        var p := new PushableObject(position, kind, system, suffix);
        if Registered(pushableObjects, system, cs) {
          RegisteredGrow(pushableObjects, system, cs, [p.collider]);
          RegisteredSnoc(pushableObjects, p, system, system.colliders);
        }
        pushableObjects := pushableObjects + [p];
        assert pushableObjects[|old(pushableObjects)|..] == [p];
      } else {
        assert pushableObjects[|old(pushableObjects)|..] == [];
      }
    }

    /**
     * `createDecorativeObjects`: trees and boulders at every fixed position,
     * bushes where clear by 4 and flower patches where clear by 3.
     */
    method CreateDecorativeObjects()
      modifies this`decorativeObjects
      ensures decorativeObjects == old(decorativeObjects)
        + Decorations(Tree, TreePositions) + Decorations(LargeBoulder, BoulderPositions)
        + Decorations(Bush, ClearPositions(BushPositions, BushClearance))
        + Decorations(FlowerPatch, ClearPositions(FlowerPatchPositions, FlowerPatchClearance))
    {
      PlaceDecorations(Tree, TreePositions);
      PlaceDecorations(LargeBoulder, BoulderPositions);
      PlaceDecorationsWhereClear(Bush, BushPositions, BushClearance);
      PlaceDecorationsWhereClear(FlowerPatch, FlowerPatchPositions, FlowerPatchClearance);
    }

    /** An unconditional placement loop. */
    method PlaceDecorations(kind: DecorKind, positions: seq<Vec3>)
      modifies this`decorativeObjects
      ensures decorativeObjects == old(decorativeObjects) + Decorations(kind, positions)
    {
      var i := 0;
      while i < |positions|
        invariant 0 <= i <= |positions|
        invariant decorativeObjects == old(decorativeObjects) + Decorations(kind, positions[..i])
      {
        decorativeObjects := decorativeObjects + [Decoration(kind, positions[i])];
        assert Decorations(kind, positions[..i + 1]) == Decorations(kind, positions[..i]) + [Decoration(kind, positions[i])];
        i := i + 1;
      }
      assert positions[..i] == positions;
    }

    /** A placement loop gated on `isPositionClear`. */
    method PlaceDecorationsWhereClear(kind: DecorKind, positions: seq<Vec3>, clearance: real)
      modifies this`decorativeObjects
      ensures decorativeObjects == old(decorativeObjects) + Decorations(kind, ClearPositions(positions, clearance))
    {
      var i := 0;
      while i < |positions|
        invariant 0 <= i <= |positions|
        invariant decorativeObjects == old(decorativeObjects) + Decorations(kind, ClearPositions(positions[..i], clearance))
      {
        ClearDecorationsStep(kind, positions, clearance, i);
        var clear := IsPositionClear(positions[i], clearance);
        if clear {
          decorativeObjects := decorativeObjects + [Decoration(kind, positions[i])];
        }
        i := i + 1;
      }
      assert positions[..i] == positions;
    }

    /**
     * `updatePushableObjects`: each pushable takes exactly one frame, in list
     * order, using the update that does not test a body against its own
     * collider.
     */
    method UpdatePushableObjects(dt: real)
      requires PushablesRegistered()
      modifies pushableObjects, PushableMeshes()
      ensures PushablesRegistered()
      ensures forall i :: 0 <= i < |pushableObjects| ==>
        OneFrame(old(pushableObjects[i].velocity), old(pushableObjects[i].mesh.Position()),
                 pushableObjects[i].velocity, pushableObjects[i].mesh.Position(), dt)
    {
      var i := 0;
      while i < |pushableObjects|
        invariant 0 <= i <= |pushableObjects|
        invariant forall k :: 0 <= k < i ==>
          OneFrame(old(pushableObjects[k].velocity), old(pushableObjects[k].mesh.Position()),
                   pushableObjects[k].velocity, pushableObjects[k].mesh.Position(), dt)
        invariant forall k :: i <= k < |pushableObjects| ==>
          pushableObjects[k].velocity == old(pushableObjects[k].velocity) && pushableObjects[k].mesh.Position() == old(pushableObjects[k].mesh.Position())
      {
        var p := pushableObjects[i];
        label before:
        PushableFrame(p, dt);
        forall k | 0 <= k < |pushableObjects| && k != i
          ensures pushableObjects[k].velocity == old@before(pushableObjects[k].velocity)
          ensures pushableObjects[k].mesh.Position() == old@before(pushableObjects[k].mesh.Position())
        {
          assert pushableObjects[k] != p && pushableObjects[k].mesh != p.mesh;
        }
        i := i + 1;
      }
    }

    /**
     * `createInteractiveElements`: an info flower, crystal or rock for each
     * About Me Meadow entry, in order, each starting inactive.
     */
    method CreateInteractiveElements()
      modifies this`interactiveElements
      ensures |interactiveElements| == |old(interactiveElements)| + |AboutMeElements|
      ensures interactiveElements[..|old(interactiveElements)|] == old(interactiveElements)
      ensures ElementsAt(interactiveElements[|old(interactiveElements)|..], AboutMeElements)
    {
      PlaceInteractiveElements(AboutMeElements);
    }

    /** The loop of `createInteractiveElements`, over the given entries. */
    method PlaceInteractiveElements(specs: seq<ElementSpec>)
      modifies this`interactiveElements
      ensures |interactiveElements| == |old(interactiveElements)| + |specs|
      ensures interactiveElements[..|old(interactiveElements)|] == old(interactiveElements)
      ensures ElementsAt(interactiveElements[|old(interactiveElements)|..], specs)
    {
      var start := |interactiveElements|;
      var i := 0;
      while i < |specs|
        invariant 0 <= i <= |specs|
        invariant |interactiveElements| == start + i
        invariant interactiveElements[..start] == old(interactiveElements)
        invariant forall k :: start <= k < |interactiveElements| ==>
          && interactiveElements[k].kind == specs[k - start].kind
          && interactiveElements[k].position == specs[k - start].position
          && !interactiveElements[k].isActive
      {
        var e := new Interactive.InteractiveElement(specs[i].kind, specs[i].position);
        interactiveElements := interactiveElements + [e];
        i := i + 1;
      }
    }

    /**
     * `updateInteractiveElements`: every element takes its update in list
     * order, after which each one is active exactly when the player is
     * within its interaction range.
     */
    method UpdateInteractiveElements(dt: real, playerPosition: Vec3, sqrt: real -> real)
      requires IsSqrt(sqrt)
      modifies interactiveElements
      ensures forall k :: 0 <= k < |interactiveElements| ==>
        (interactiveElements[k].isActive <==> InRange(interactiveElements[k], playerPosition))
      ensures forall k :: 0 <= k < |interactiveElements| ==>
        interactiveElements[k].glowOpacity == Interactive.GlowAt(Length(Sub(playerPosition, interactiveElements[k].position), sqrt))
    {
      var i := 0;
      while i < |interactiveElements|
        invariant 0 <= i <= |interactiveElements|
        invariant forall k :: 0 <= k < i ==>
          (interactiveElements[k].isActive <==> InRange(interactiveElements[k], playerPosition))
        invariant forall k :: 0 <= k < i ==>
          interactiveElements[k].glowOpacity == Interactive.GlowAt(Length(Sub(playerPosition, interactiveElements[k].position), sqrt))
      {
        var e := interactiveElements[i];
        label before:
        var _, _ := e.Update(dt, playerPosition, sqrt);
        LengthNonNegative(Sub(playerPosition, e.position), sqrt);
        assert e.glowOpacity == Interactive.GlowAt(Length(Sub(playerPosition, e.position), sqrt));
        forall k | 0 <= k < i
          ensures interactiveElements[k].isActive <==> InRange(interactiveElements[k], playerPosition)
          ensures interactiveElements[k].glowOpacity == Interactive.GlowAt(Length(Sub(playerPosition, interactiveElements[k].position), sqrt))
        {
          if interactiveElements[k] != e {
            assert interactiveElements[k].isActive == old@before(interactiveElements[k].isActive);
            assert interactiveElements[k].glowOpacity == old@before(interactiveElements[k].glowOpacity);
          }
        }
        i := i + 1;
      }
    }

    /** `getDestructibles`. */
    function GetDestructibles(): seq<DestructibleObject>
      reads this, destructibles
    {
      Live(destructibles)
    }

    /**
     * `dispose`, collections only: every destructible's mesh leaves the
     * scene and the five object collections are emptied.  The collision system
     * keeps every collider the world registered.
     */
    method Dispose()
      modifies this, destructibles
      ensures forall d :: d in old(destructibles) && d.mesh != null ==> !d.inScene
      ensures forall d :: d in old(destructibles) && d.mesh == null ==> d.inScene == old(d.inScene)
      ensures forall d :: d in old(destructibles) ==> d.isDestroyed == old(d.isDestroyed) && d.particles == old(d.particles)
      ensures destructibles == [] && pushableObjects == [] && decorativeObjects == []
      ensures interactiveElements == [] && worldObjects == [] && areas == old(areas)
    {
      var i := 0;
      while i < |destructibles|
        invariant 0 <= i <= |destructibles|
        invariant destructibles == old(destructibles) && areas == old(areas)
        invariant forall k :: 0 <= k < i && destructibles[k].mesh != null ==> !destructibles[k].inScene
        invariant forall d :: d in old(destructibles) && d.mesh == null ==> d.inScene == old(d.inScene)
        invariant forall d :: d in old(destructibles) ==> d.isDestroyed == old(d.isDestroyed) && d.particles == old(d.particles)
      {
        destructibles[i].Dispose();
        i := i + 1;
      }
      worldObjects := [];
      destructibles := [];
      pushableObjects := [];
      decorativeObjects := [];
      interactiveElements := [];
    }
  }
}
