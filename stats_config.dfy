/**
 * The per-character tuning asset (a ScriptableObject in the game): an
 * immutable record of numbers and switches, shared by reference and never
 * written by the movement code.
 */
module StatsConfig {

  datatype CharacterStats = CharacterStats(
    // health and stamina
    maxHealth: real,
    initialHealth: real,
    maxStamina: real,
    initialStamina: real,
    jumpStaminaCost: real,
    dashStaminaCost: real,
    recoverStaminaAmount: real,
    recoverStaminaTime: real,
    // layers: the LayerMask bits of the player's own layer
    playerLayer: bv32,
    // input
    snapInput: bool,
    verticalDeadZoneThreshold: real,
    horizontalDeadZoneThreshold: real,
    // movement
    maxSpeed: real,
    acceleration: real,
    groundDeceleration: real,
    airDeceleration: real,
    groundingForce: real,
    grounderDistance: real,
    // jump
    jumpPower: real,
    maxFallSpeed: real,
    fallAcceleration: real,
    jumpEndEarlyGravityModifier: real,
    coyoteTime: real,
    jumpBuffer: real,
    // dash
    dashPower: real,
    dashDuration: real,
    dashCooldown: real,
    canDashInAir: bool)

  /** The values a freshly created asset carries. */
  const Defaults: CharacterStats := CharacterStats(
    100.0, 100.0, 100.0, 100.0,
    10.0, 20.0,
    1.0, 0.3,
    0,
    true, 0.3, 0.1,
    14.0, 120.0, 60.0, 30.0, -1.5, 0.05,
    18.0, 40.0, 50.0, 3.0, 0.15, 0.2,
    20.0, 0.2, 0.5, true)

  /**
   * The accelerations and limits the physics code moves velocities by are
   * non-negative (they are all positive in the defaults).
   */
  predicate NonNegativeRates(st: CharacterStats)
  {
    && st.maxSpeed >= 0.0
    && st.acceleration >= 0.0
    && st.groundDeceleration >= 0.0
    && st.airDeceleration >= 0.0
    && st.maxFallSpeed >= 0.0
    && st.fallAcceleration >= 0.0
    && st.jumpEndEarlyGravityModifier >= 0.0
  }
}
