/**
 * Pushable logs and rocks: a velocity that friction decays every frame, a
 * step that is taken only when the collision system reports the target
 * free, and a push that adds a normalised impulse and caps the speed.
 */
module Pushable {
  import opened Geometry
  import opened Collision

  /** The `type` of a pushable: the two subclasses, or a base object with its own tag. */
  datatype PushableKind = Log | Rock | Plain(typeName: string)

  const Friction: real := 0.9
  const PushForce: real := 15.0
  const MaxVelocity: real := 10.0
  /** Speeds at or below this are treated as rest. */
  const RestSpeed: real := 0.01

  function TypeName(kind: PushableKind): string {
    match kind
    case Log => "log"
    case Rock => "rock"
    case Plain(t) => t
  }

  /** `mass` after construction: the subclasses overwrite the base value 1. */
  function Mass(kind: PushableKind): (m: real)
    ensures 1.0 <= m <= 2.0
  {
    match kind
    case Log => 2.0
    case Rock => 1.5
    case Plain(_) => 1.0
  }

  /** `getCollisionSize()`: a fallen log is long on x, everything else is a 2-cube. */
  function CollisionSize(kind: PushableKind): Size {
    match kind
    case Log => Size(4.0, 1.2, 1.2)
    case _ => Size(2.0, 2.0, 2.0)
  }

  /** The height at which `createMesh` places the mesh; the base class creates none. */
  function MeshHeight(kind: PushableKind): real
    requires !kind.Plain?
  {
    match kind
    case Log => 0.6
    case Rock => 1.0
  }

  /** One frame of friction. */
  function Decayed(v: Vec3): (r: Vec3)
    ensures Len2(r) <= Len2(v)
    ensures Len2(r) == 0.81 * Len2(v)
  {
    Len2Scale(v, Friction);
    Len2NonNegative(v);
    assert Sq(Friction) == 0.81;
    Scale(v, Friction)
  }

  /** `velocity.length() > 0.01`, stated on the squared length. */
  predicate Moving(v: Vec3) {
    Sq(RestSpeed) < Len2(v)
  }

  lemma MovingIffFasterThanRest(v: Vec3, sqrt: real -> real)
    requires IsSqrt(sqrt)
    ensures Moving(v) <==> RestSpeed < Length(v, sqrt)
  {
    Len2NonNegative(v);
    SqrtGreater(Len2(v), RestSpeed, sqrt);
  }

  /** `mesh.position + velocity * deltaTime`. */
  function StepTarget(position: Vec3, v: Vec3, dt: real): Vec3 {
    Add(position, Scale(v, dt))
  }

  /**
   * The outcomes one `update` frame allows for a body with a mesh, from
   * velocity `v` at `pos` to `v1` at `pos1`: at rest after friction it stays
   * put with the decayed velocity; otherwise it either stops dead where it
   * is or keeps the decayed velocity and takes the whole step.
   */
  predicate OneFrame(v: Vec3, pos: Vec3, v1: Vec3, pos1: Vec3, dt: real) {
    var d := Decayed(v);
    if !Moving(d) then v1 == d && pos1 == pos
    else (v1 == Zero && pos1 == pos) || (v1 == d && pos1 == StepTarget(pos, d, dt))
  }

  /** No frame makes a body faster, so the speed cap survives every frame. */
  lemma OneFrameKeepsSpeedCap(v: Vec3, pos: Vec3, v1: Vec3, pos1: Vec3, dt: real)
    requires OneFrame(v, pos, v1, pos1, dt)
    ensures Len2(v1) <= Len2(v)
  {
    Len2NonNegative(v);
    if v1 == Zero {
      Len2OfZero();
    }
  }

  /**
   * The velocity after `push(direction, force)`: the normalised direction
   * scaled by `pushForce * force / mass` is added, and a result faster than
   * 10 is scaled back to length exactly 10.
   */
  function PushedVelocity(v: Vec3, direction: Vec3, force: real, mass: real, sqrt: real -> real): (r: Vec3)
    requires IsSqrt(sqrt) && mass != 0.0
    ensures Len2(r) <= Sq(MaxVelocity)
    ensures var w := Add(v, Scale(Normalize(direction, sqrt), PushForce * force / mass));
      && (Len2(w) <= Sq(MaxVelocity) ==> r == w)
      && (Sq(MaxVelocity) < Len2(w) ==> Len2(r) == Sq(MaxVelocity))
      && (Sq(MaxVelocity) < Len2(w) ==> exists k: real :: 0.0 < k && r == Scale(w, k))
  {
    var w := Add(v, Scale(Normalize(direction, sqrt), PushForce * force / mass));
    Len2NonNegative(w);
    SqrtGreater(Len2(w), MaxVelocity, sqrt);
    if Length(w, sqrt) > MaxVelocity then
      assert w != Zero by {
        if w == Zero {
          Len2OfZero();
          SquareOfPositive(MaxVelocity);
        }
      }
      var u := Normalize(w, sqrt);
      Len2Scale(u, MaxVelocity);
      var k :| 0.0 < k && u == Scale(w, k);
      ScaleScale(w, k, MaxVelocity);
      assert 0.0 < k * MaxVelocity;
      Scale(u, MaxVelocity)
    else
      w
  }

  /** A push along a non-zero direction that stays under the cap changes the velocity by exactly `pushForce * force / mass`. */
  lemma PushImpulseMagnitude(v: Vec3, direction: Vec3, force: real, mass: real, sqrt: real -> real)
    requires IsSqrt(sqrt) && mass != 0.0 && direction != Zero
    requires Len2(Add(v, Scale(Normalize(direction, sqrt), PushForce * force / mass))) <= Sq(MaxVelocity)
    ensures Len2(Sub(PushedVelocity(v, direction, force, mass, sqrt), v)) == Sq(PushForce * force / mass)
  {
    var k := PushForce * force / mass;
    var u := Normalize(direction, sqrt);
    var r := PushedVelocity(v, direction, force, mass, sqrt);
    assert Sub(r, v) == Scale(u, k);
    Len2Scale(u, k);
  }

  /** A push along the zero vector adds nothing (THREE divides by `length || 1`). */
  lemma ZeroDirectionPushIsNoOp(v: Vec3, force: real, mass: real, sqrt: real -> real)
    requires IsSqrt(sqrt) && mass != 0.0 && Len2(v) <= Sq(MaxVelocity)
    ensures PushedVelocity(v, Zero, force, mass, sqrt) == v
  {
    var k := PushForce * force / mass;
    assert Normalize(Zero, sqrt) == Zero;
    assert Scale(Zero, k) == Zero;
    assert Add(v, Zero) == v;
  }

  /** Some boundary, or some collider other than `self`, overlaps the box of `size` at `position`. */
  predicate BlockedByOthers(system: CollisionSystem, position: Vec3, size: Size, self: Collider?)
    reads system, system.Owners()
  {
    var box := BoxAround(position, size);
    || (exists i :: 0 <= i < |system.boundaries| && BoundaryBlocks(system.boundaries[i], box))
    || (exists j :: 0 <= j < |system.colliders| && system.colliders[j] != self && ColliderBlocks(system.colliders[j], box))
  }

  lemma BlockedByOthersIgnoringNothing(system: CollisionSystem, position: Vec3, size: Size)
    ensures BlockedByOthers(system, position, size, null) <==> system.Collides(position, size)
  {
  }

  class PushableObject {
    const kind: PushableKind
    const mesh: Owner?
    const system: CollisionSystem?
    const collider: Collider?
    var velocity: Vec3

    function Size(): Size {
      CollisionSize(kind)
    }

    /** The speed is within the cap that `push` enforces. */
    predicate SpeedCapped()
      reads this
    {
      Len2(velocity) <= Sq(MaxVelocity)
    }

    /** The collider, when there is one, follows this object's mesh with this object's size. */
    predicate Valid() {
      && (collider != null <==> mesh != null && system != null)
      && (collider != null ==> collider.owner == mesh && collider.size == Size())
    }

    /**
     * Builds the mesh (logs lie at height 0.6, rocks at 1; the base class
     * builds none) and, when there is both a mesh and a collision system,
     * registers a collider named `pushable-<type>-<suffix>` for it.
     */
    constructor (position: Vec3, kind: PushableKind, system: CollisionSystem?, suffix: string)
      modifies system
      ensures Valid() && SpeedCapped()
      ensures this.kind == kind && this.system == system && velocity == Zero
      ensures kind.Plain? ==> mesh == null
      ensures !kind.Plain? ==> mesh != null && fresh(mesh) && mesh.Position() == Vec3(position.x, MeshHeight(kind), position.z)
      ensures collider != null ==> fresh(collider) && collider.name == "pushable-" + TypeName(kind) + "-" + suffix
      ensures system != null ==> system.boundaries == old(system.boundaries)
      ensures system != null ==> system.colliders == old(system.colliders) + (if collider != null then [collider] else [])
    {
      this.kind := kind;
      this.system := system;
      var m: Owner? := null;
      if !kind.Plain? {
        m := new Owner(Vec3(position.x, MeshHeight(kind), position.z));
      }
      this.mesh := m;
      var c: Collider? := null;
      if m != null && system != null {
        c := system.AddCollider(m, CollisionSize(kind), "pushable-" + TypeName(kind) + "-" + suffix);
      }
      this.collider := c;
      velocity := Zero;
    }

    /**
     * One frame: friction, then — when still moving — a step to
     * `position + velocity * dt` if the collision system reports the target
     * free, or a full stop if it reports anything.  Without a mesh the
     * source would fail on the step, so a mesh is required whenever the
     * object is still moving.
     */
    method Update(dt: real)
      requires mesh != null || !Moving(Decayed(velocity))
      modifies this, mesh
      ensures mesh != null ==> OneFrame(old(velocity), old(mesh.Position()), velocity, mesh.Position(), dt)
      ensures old(SpeedCapped()) ==> SpeedCapped()
      ensures var v := Decayed(old(velocity));
        && (!Moving(v) ==> velocity == v && (mesh != null ==> mesh.Position() == old(mesh.Position())))
        && (Moving(v) ==> mesh != null)
      ensures mesh != null && Moving(Decayed(old(velocity))) ==>
        var target := StepTarget(old(mesh.Position()), Decayed(old(velocity)), dt);
        if system != null && old(system.Collides(target, Size())) then
          velocity == Zero && mesh.Position() == old(mesh.Position())
        else
          velocity == Decayed(old(velocity)) && mesh.Position() == target
    {
      velocity := Decayed(velocity);
      if Moving(velocity) {
        var target := StepTarget(mesh.Position(), velocity, dt);
        if system != null {
          var hit := system.CheckCollision(target, Size());
          if hit == NoCollision {
            mesh.MoveTo(target);
          } else {
            velocity := Zero;
          }
        } else {
          mesh.MoveTo(target);
        }
      }
    }

    /**
     * `update` with the collision query told to skip this object's own
     * collider, which is what a step test for a registered object needs.
     */
    method UpdateIgnoringOwnCollider(dt: real)
      requires mesh != null || !Moving(Decayed(velocity))
      modifies this, mesh
      ensures mesh != null ==> OneFrame(old(velocity), old(mesh.Position()), velocity, mesh.Position(), dt)
      ensures old(SpeedCapped()) ==> SpeedCapped()
      ensures var v := Decayed(old(velocity));
        && (!Moving(v) ==> velocity == v && (mesh != null ==> mesh.Position() == old(mesh.Position())))
        && (Moving(v) ==> mesh != null)
      ensures mesh != null && Moving(Decayed(old(velocity))) ==>
        var target := StepTarget(old(mesh.Position()), Decayed(old(velocity)), dt);
        if system != null && old(BlockedByOthers(system, target, Size(), collider)) then
          velocity == Zero && mesh.Position() == old(mesh.Position())
        else
          velocity == Decayed(old(velocity)) && mesh.Position() == target
    {
      velocity := Decayed(velocity);
      if Moving(velocity) {
        var target := StepTarget(mesh.Position(), velocity, dt);
        if system != null && BlockedByOthers(system, target, Size(), collider) {
          velocity := Zero;
        } else {
          mesh.MoveTo(target);
        }
      }
    }

    method Push(direction: Vec3, force: real, sqrt: real -> real)
      requires IsSqrt(sqrt)
      modifies this
      ensures velocity == PushedVelocity(old(velocity), direction, force, Mass(kind), sqrt)
      ensures SpeedCapped()
    {
      velocity := PushedVelocity(velocity, direction, force, Mass(kind), sqrt);
    }

    /**
     * `checkPlayerCollision`: with a mesh, the player touches the object
     * when the centres are closer than the mean of the two widths.
     */
    function CheckPlayerCollision(playerPosition: Vec3, playerSize: Size): bool
      reads mesh
    {
      mesh != null &&
      WithinDistance(Dist2(mesh.Position(), playerPosition), (playerSize.width + Size().width) / 2.0)
    }
  }

  /** `checkPlayerCollision` is the distance test `distanceTo(player) < (w_player + w_self) / 2`. */
  lemma CheckPlayerCollisionIsDistanceTest(p: PushableObject, playerPosition: Vec3, playerSize: Size, sqrt: real -> real)
    requires IsSqrt(sqrt)
    ensures p.CheckPlayerCollision(playerPosition, playerSize) <==>
      p.mesh != null && Length(Sub(p.mesh.Position(), playerPosition), sqrt) < (playerSize.width + p.Size().width) / 2.0
  {
    if p.mesh != null {
      var d := Sub(p.mesh.Position(), playerPosition);
      Len2NonNegative(d);
      SqrtComparison(Len2(d), (playerSize.width + p.Size().width) / 2.0, sqrt);
    }
  }

  /**
   * A registered pushable always overlaps its own collider at any step
   * shorter than its size on every axis, so `checkCollision` blocks it.
   */
  lemma OwnColliderBlocksShortSteps(p: PushableObject, step: Vec3)
    requires p.Valid() && p.collider != null && p.collider in p.system.colliders
    requires Abs(step.x) < p.Size().width && Abs(step.y) < p.Size().height && Abs(step.z) < p.Size().depth
    ensures p.system.Collides(Add(p.mesh.Position(), step), p.Size())
  {
    var pos := p.mesh.Position();
    var target := Add(pos, step);
    SameSizeBoxesIntersect(target, pos, p.Size());
    var j :| 0 <= j < |p.system.colliders| && p.system.colliders[j] == p.collider;
    assert ColliderBlocks(p.system.colliders[j], BoxAround(target, p.Size()));
  }

  /** A velocity component of a speed within the cap moves at most 1 in a frame of at most 0.1 s. */
  lemma ComponentStepBound(c: real, dt: real)
    requires Sq(c) <= Sq(MaxVelocity) && 0.0 <= dt <= 0.1
    ensures Abs(c * dt) <= 1.0
  {
    var a := Abs(c);
    SquareOfNegation(c);
    assert Sq(a) == Sq(c);
    if MaxVelocity < a {
      SquareLess(MaxVelocity, a);
    }
    MulLeq(a, MaxVelocity, dt);
    assert Mul(MaxVelocity, dt) == MaxVelocity * dt;
    if 0.0 <= c {
      MulLeq(0.0, c, dt);
      assert Mul(0.0, dt) == 0.0 * dt;
      assert Mul(c, dt) == c * dt;
    } else {
      MulLeq(c, 0.0, dt);
      assert Mul(0.0, dt) == 0.0 * dt;
      assert Mul(c, dt) == c * dt;
      assert Mul(a, dt) == (-c) * dt;
      assert (-c) * dt == -(c * dt);
    }
  }

  /**
   * With the speed capped at 10 (which `push` and friction guarantee) and
   * frames of at most 100 ms, every step a registered pushable tries
   * overlaps its own collider, so `update` always reports a collision.
   */
  lemma RegisteredPushableBlocksItself(p: PushableObject, v: Vec3, dt: real)
    requires p.Valid() && p.collider != null && p.collider in p.system.colliders
    requires Len2(v) <= Sq(MaxVelocity) && 0.0 <= dt <= 0.1
    ensures p.system.Collides(StepTarget(p.mesh.Position(), v, dt), p.Size())
  {
    ShortStep(v, dt);
    EverySideExceedsOne(p.kind);
    OwnColliderBlocksShortSteps(p, Scale(v, dt));
  }

  /** Within the speed cap and a frame of at most 100 ms, a step moves at most 1 along each axis. */
  lemma ShortStep(v: Vec3, dt: real)
    requires Len2(v) <= Sq(MaxVelocity) && 0.0 <= dt <= 0.1
    ensures Abs(Scale(v, dt).x) <= 1.0 && Abs(Scale(v, dt).y) <= 1.0 && Abs(Scale(v, dt).z) <= 1.0
  {
    ComponentsWithinCap(v);
    AxisStepBound(v.x, dt, Scale(v, dt).x);
    AxisStepBound(v.y, dt, Scale(v, dt).y);
    AxisStepBound(v.z, dt, Scale(v, dt).z);
  }

  /** `ComponentStepBound` for a step component `s` known to be `c * dt`. */
  lemma AxisStepBound(c: real, dt: real, s: real)
    requires s == c * dt && Sq(c) <= Sq(MaxVelocity) && 0.0 <= dt <= 0.1
    ensures Abs(s) <= 1.0
  {
    ComponentStepBound(c, dt);
  }

  /** Each velocity component is within the cap when the whole speed is. */
  lemma ComponentsWithinCap(v: Vec3)
    requires Len2(v) <= Sq(MaxVelocity)
    ensures Sq(v.x) <= Sq(MaxVelocity) && Sq(v.y) <= Sq(MaxVelocity) && Sq(v.z) <= Sq(MaxVelocity)
  {
    SquareNonNegative(v.x);
    SquareNonNegative(v.y);
    SquareNonNegative(v.z);
  }

  /** Every collision box is more than 1 along each axis. */
  lemma EverySideExceedsOne(kind: PushableKind)
    ensures 1.0 < CollisionSize(kind).width && 1.0 < CollisionSize(kind).height && 1.0 < CollisionSize(kind).depth
  {
  }
}
