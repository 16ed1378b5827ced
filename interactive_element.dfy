/**
 * Info flowers, rocks and crystals: an element is active exactly while the
 * player is within range, and a glow ring under it brightens and turns as
 * the player comes closer.
 */
module Interactive {
  import opened Geometry

  datatype ElementKind = Flower | Rock | Crystal | Plain(typeName: string)

  const InteractionRange: real := 6.0
  /** Glow opacity when the player stands on the element. */
  const MaxGlow: real := 0.3

  /** The glow opacity at distance `d` inside the range: `(1 - d / range) * 0.3`. */
  function GlowOpacity(d: real): (o: real)
    requires 0.0 <= d < InteractionRange
    ensures 0.0 < o <= MaxGlow
    ensures o == MaxGlow <==> d == 0.0
  {
    (1.0 - d / InteractionRange) * MaxGlow
  }

  /** The glow opacity `update` leaves for a player at distance `d`: `GlowOpacity` in range, 0 outside. */
  function GlowAt(d: real): (o: real)
    ensures 0.0 <= o <= MaxGlow
    ensures 0.0 < o <==> 0.0 <= d < InteractionRange
  {
    if 0.0 <= d < InteractionRange then GlowOpacity(d) else 0.0
  }

  /** Coming closer never dims the glow. */
  lemma GlowGrowsAsPlayerApproaches(near: real, far: real)
    requires 0.0 <= near <= far < InteractionRange
    ensures GlowOpacity(far) <= GlowOpacity(near)
  {
  }

  class InteractiveElement {
    const kind: ElementKind
    const position: Vec3
    var isActive: bool
    var glowOpacity: real
    var glowRotationZ: real
    /** The crystal mesh's spin about y. */
    var meshRotationY: real

    constructor (kind: ElementKind, position: Vec3)
      ensures this.kind == kind && this.position == position
      ensures !isActive && glowOpacity == 0.0 && glowRotationZ == 0.0 && meshRotationY == 0.0
    {
      this.kind := kind;
      this.position := position;
      isActive := false;
      glowOpacity := 0.0;
      glowRotationZ := 0.0;
      meshRotationY := 0.0;
    }

    /**
     * `InteractiveElement.update`: the element activates on entering the
     * range and deactivates on leaving it (each only on the edge), and the
     * glow follows the distance.
     */
    method BaseUpdate(dt: real, playerPosition: Vec3, sqrt: real -> real) returns (activated: bool, deactivated: bool)
      requires IsSqrt(sqrt)
      modifies this
      ensures var d := Length(Sub(playerPosition, position), sqrt);
        && (isActive <==> d < InteractionRange)
        && (activated <==> !old(isActive) && isActive)
        && (deactivated <==> old(isActive) && !isActive)
        && (d < InteractionRange ==> 0.0 <= d && glowOpacity == GlowOpacity(d) && glowRotationZ == old(glowRotationZ) + dt * 2.0)
        && (InteractionRange <= d ==> glowOpacity == 0.0 && glowRotationZ == old(glowRotationZ))
      ensures isActive <==> WithinDistance(Dist2(playerPosition, position), InteractionRange)
      ensures meshRotationY == old(meshRotationY)
    {
      var d := Length(Sub(playerPosition, position), sqrt);
      LengthNonNegative(Sub(playerPosition, position), sqrt);
      Len2NonNegative(Sub(playerPosition, position));
      SqrtComparison(Dist2(playerPosition, position), InteractionRange, sqrt);
      activated, deactivated := false, false;
      if d < InteractionRange {
        if !isActive {
          Activate();
          activated := true;
        }
        glowOpacity := GlowOpacity(d);
        glowRotationZ := glowRotationZ + dt * 2.0;
      } else {
        if isActive {
          Deactivate();
          deactivated := true;
        }
        glowOpacity := 0.0;
      }
    }

    /**
     * `update` as dispatched on the element's class: crystals run the base
     * update first and then spin their mesh by `0.5 * dt`.
     */
    method Update(dt: real, playerPosition: Vec3, sqrt: real -> real) returns (activated: bool, deactivated: bool)
      requires IsSqrt(sqrt)
      modifies this
      ensures var d := Length(Sub(playerPosition, position), sqrt);
        && (d < InteractionRange ==> 0.0 <= d && glowOpacity == GlowOpacity(d) && glowRotationZ == old(glowRotationZ) + dt * 2.0)
        && (InteractionRange <= d ==> glowOpacity == 0.0 && glowRotationZ == old(glowRotationZ))
      ensures isActive <==> WithinDistance(Dist2(playerPosition, position), InteractionRange)
      ensures activated <==> !old(isActive) && isActive
      ensures deactivated <==> old(isActive) && !isActive
      ensures kind == Crystal ==> meshRotationY == old(meshRotationY) + dt * 0.5
      ensures kind != Crystal ==> meshRotationY == old(meshRotationY)
    {
      activated, deactivated := BaseUpdate(dt, playerPosition, sqrt);
      if kind == Crystal {
        meshRotationY := meshRotationY + dt * 0.5;
      }
    }

    /** `activate`: the element's content is shown. */
    method Activate()
      modifies this
      ensures isActive
      ensures glowOpacity == old(glowOpacity) && glowRotationZ == old(glowRotationZ) && meshRotationY == old(meshRotationY)
    {
      isActive := true;
    }

    /** `deactivate`: the element's content is hidden. */
    method Deactivate()
      modifies this
      ensures !isActive
      ensures glowOpacity == old(glowOpacity) && glowRotationZ == old(glowRotationZ) && meshRotationY == old(meshRotationY)
    {
      isActive := false;
    }
  }
}
