/**
 * The player's health and invincibility state machine, the delayed respawn
 * after death, and the clamp that keeps the player inside the world.
 */
module PlayerState {
  import opened Geometry

  const MaxHealth: real := 100.0
  /** Milliseconds of invincibility after a hit. */
  const InvincibilityDuration: real := 1500.0
  /** Half the side of the square the player may stand in. */
  const WorldLimit: real := 90.0

  /** `Math.max(0, health - amount)`. */
  function DamagedHealth(health: real, amount: real): (h: real)
    ensures 0.0 <= h
    ensures 0.0 <= amount && 0.0 <= health ==> h <= health
    ensures h == 0.0 <==> health - amount <= 0.0
    ensures 0.0 < h ==> h == health - amount
  {
    if health - amount < 0.0 then 0.0 else health - amount
  }

  /** `Math.min(maxHealth, health + amount)`. */
  function HealedHealth(health: real, amount: real): (h: real)
    ensures h <= MaxHealth
    ensures 0.0 <= amount && health <= MaxHealth ==> health <= h
    ensures h == MaxHealth <==> MaxHealth <= health + amount
    ensures h < MaxHealth ==> h == health + amount
  {
    if MaxHealth < health + amount then MaxHealth else health + amount
  }

  /** Health stays in `[0, maxHealth]` under damage and healing by non-negative amounts. */
  lemma HealthStaysInRange(health: real, amount: real)
    requires 0.0 <= health <= MaxHealth && 0.0 <= amount
    ensures 0.0 <= DamagedHealth(health, amount) <= MaxHealth
    ensures 0.0 <= HealedHealth(health, amount) <= MaxHealth
  {
  }

  /** `handleMovement`'s last step: x and z are clamped to `[-90, 90]`, y is left alone. */
  function ClampToWorld(p: Vec3): (q: Vec3)
    ensures -WorldLimit <= q.x <= WorldLimit && -WorldLimit <= q.z <= WorldLimit
    ensures q.y == p.y
    ensures -WorldLimit <= p.x <= WorldLimit ==> q.x == p.x
    ensures -WorldLimit <= p.z <= WorldLimit ==> q.z == p.z
  {
    Vec3(Clamp(p.x, -WorldLimit, WorldLimit), p.y, Clamp(p.z, -WorldLimit, WorldLimit))
  }

  lemma ClampToWorldIdempotent(p: Vec3)
    ensures ClampToWorld(ClampToWorld(p)) == ClampToWorld(p)
  {
  }

  class Player {
    /** The player's scene object; `init` places it at the origin. */
    const mesh: Owner
    var velocity: Vec3
    var currentHealth: real
    var isInvincible: bool
    /** Milliseconds of invincibility left. */
    var invincibilityTimer: real
    /** Respawn callbacks scheduled by `handleDeath` that have not fired yet. */
    var pendingRespawns: nat

    predicate HealthInRange()
      reads this
    {
      0.0 <= currentHealth <= MaxHealth
    }

    /** The constructor followed by `init`. */
    constructor ()
      ensures fresh(mesh) && mesh.Position() == Zero && velocity == Zero
      ensures currentHealth == MaxHealth && HealthInRange()
      ensures !isInvincible && invincibilityTimer == 0.0 && pendingRespawns == 0
    {
      mesh := new Owner(Zero);
      velocity := Zero;
      currentHealth := MaxHealth;
      isInvincible := false;
      invincibilityTimer := 0.0;
      pendingRespawns := 0;
    }

    /**
     * `takeDamage`: refused while invincible; otherwise health drops (never
     * below 0), 1.5 s of invincibility start, and a death schedules one
     * respawn.
     */
    method TakeDamage(amount: real) returns (took: bool)
      modifies this
      ensures took == !old(isInvincible)
      ensures !took ==> (currentHealth == old(currentHealth) && isInvincible == old(isInvincible) &&
                         invincibilityTimer == old(invincibilityTimer) && pendingRespawns == old(pendingRespawns))
      ensures took ==> (currentHealth == DamagedHealth(old(currentHealth), amount) &&
                        isInvincible && invincibilityTimer == InvincibilityDuration)
      ensures took && currentHealth == 0.0 ==> pendingRespawns == old(pendingRespawns) + 1
      ensures took && currentHealth != 0.0 ==> pendingRespawns == old(pendingRespawns)
      ensures velocity == old(velocity)
      ensures old(HealthInRange()) && 0.0 <= amount ==> HealthInRange()
    {
      if isInvincible {
        return false;
      }
      currentHealth := DamagedHealth(currentHealth, amount);
      isInvincible := true;
      invincibilityTimer := InvincibilityDuration;
      if currentHealth <= 0.0 {
        HandleDeath();
      }
      return true;
    }

    /** `heal`: health rises, never above the maximum. */
    method Heal(amount: real)
      modifies this
      ensures currentHealth == HealedHealth(old(currentHealth), amount)
      ensures isInvincible == old(isInvincible) && invincibilityTimer == old(invincibilityTimer)
      ensures pendingRespawns == old(pendingRespawns) && velocity == old(velocity)
      ensures old(HealthInRange()) && 0.0 <= amount ==> HealthInRange()
    {
      currentHealth := HealedHealth(currentHealth, amount);
    }

    /** `updateInvincibility`: the timer counts down in milliseconds and the flag clears once it reaches 0. */
    method UpdateInvincibility(dt: real)
      modifies this
      ensures !old(isInvincible) ==> !isInvincible && invincibilityTimer == old(invincibilityTimer)
      ensures old(isInvincible) ==> (invincibilityTimer == old(invincibilityTimer) - dt * 1000.0 &&
                                     (isInvincible <==> 0.0 < invincibilityTimer))
      ensures currentHealth == old(currentHealth) && pendingRespawns == old(pendingRespawns)
      ensures velocity == old(velocity)
    {
      if isInvincible {
        invincibilityTimer := invincibilityTimer - dt * 1000.0;
        if invincibilityTimer <= 0.0 {
          isInvincible := false;
        }
      }
    }

    /** `handleDeath`: schedules one respawn, 2000 ms from now. */
    method HandleDeath()
      modifies this
      ensures pendingRespawns == old(pendingRespawns) + 1
      ensures currentHealth == old(currentHealth) && isInvincible == old(isInvincible)
      ensures invincibilityTimer == old(invincibilityTimer) && velocity == old(velocity)
    {
      pendingRespawns := pendingRespawns + 1;
    }

    /** `respawn`: full health at the origin, at rest and vulnerable; the timer is left as it was. */
    method Respawn()
      modifies this, mesh
      ensures currentHealth == MaxHealth && HealthInRange()
      ensures mesh.Position() == Zero && velocity == Zero && !isInvincible
      ensures invincibilityTimer == old(invincibilityTimer) && pendingRespawns == old(pendingRespawns)
    {
      currentHealth := MaxHealth;
      mesh.MoveTo(Zero);
      velocity := Zero;
      isInvincible := false;
    }

    /** One scheduled respawn callback fires. */
    method RespawnTimerFires()
      requires 0 < pendingRespawns
      modifies this, mesh
      ensures pendingRespawns == old(pendingRespawns) - 1
      ensures currentHealth == MaxHealth && mesh.Position() == Zero && velocity == Zero && !isInvincible
      ensures invincibilityTimer == old(invincibilityTimer)
    {
      pendingRespawns := pendingRespawns - 1;
      Respawn();
    }

    /** The clamp step at the end of `handleMovement`. */
    method ClampPosition()
      modifies mesh
      ensures mesh.Position() == ClampToWorld(old(mesh.Position()))
    {
      mesh.MoveTo(ClampToWorld(mesh.Position()));
    }
  }

  /**
   * A hit while invincible is refused: two hits in a row with no frame in
   * between cost health only once, and a third hit after a 1.5 s frame lands.
   */
  method InvincibilityWindow() returns (first: bool, second: bool, third: bool, health: real)
    ensures first && !second && third && health == 60.0
  {
    var p := new Player();
    first := p.TakeDamage(20.0);
    second := p.TakeDamage(20.0);
    p.UpdateInvincibility(1.5);
    third := p.TakeDamage(20.0);
    health := p.currentHealth;
  }

  /** A fatal hit schedules exactly one respawn, which restores full health when it fires. */
  method DeathAndRespawn() returns (pendingAfterHit: nat, healthAfterHit: real, healthAfterRespawn: real)
    ensures pendingAfterHit == 1 && healthAfterHit == 0.0 && healthAfterRespawn == MaxHealth
  {
    var p := new Player();
    var _ := p.TakeDamage(250.0);
    pendingAfterHit := p.pendingRespawns;
    healthAfterHit := p.currentHealth;
    p.RespawnTimerFires();
    healthAfterRespawn := p.currentHealth;
  }
}
