/** The Fall root (2D revision): gravity, then landing, air dash or coyote jump, in that order. */
module FallState {
  import opened Wrappers
  import opened UnityMath
  import opened PlayerInput
  import opened Hub
  import opened StatsConfig

  const MoveDeadZone: real := 0.01

  /** InitializeSubState: Idle for (almost) no horizontal input, Run otherwise. */
  function InitialSub(d: HubData): PlayerStates
  {
    if Abs(d.input.move.x) < MoveDeadZone then Idle else Run
  }

  /** HandleGravity: vertical velocity moves toward the terminal speed at FallAcceleration. */
  function HandleGravity(d: HubData, st: CharacterStats, dt: real): HubData
  {
    var vy := MoveTowards(d.frameVelocity.y, -st.maxFallSpeed, st.fallAcceleration * dt);
    d.(frameVelocity := Vec2(d.frameVelocity.x, vy))
  }

  /** HandleDashAttempt: enough stamina switches to Dash, otherwise the dash intent is dropped. */
  function HandleDashAttempt(d: HubData, st: CharacterStats): Decision
  {
    if HasEnoughStamina(d, st.dashStaminaCost) then Decision(Some(Dash), d)
    else Decision(None, d.(dashToConsume := false))
  }

  /** HandleCoyoteJumpAttempt: enough stamina switches to Jump, otherwise the intent is dropped and the buffer used. */
  function HandleCoyoteJumpAttempt(d: HubData, st: CharacterStats): Decision
  {
    if HasEnoughStamina(d, st.jumpStaminaCost) then Decision(Some(Jump), d)
    else Decision(None, d.(jumpToConsume := false,
                           calls := d.calls.(jumpBufferUses := d.calls.jumpBufferUses + 1)))
  }

  /** The air-dash step of CheckSwitchStates: tried only when requested, available and allowed in the air. */
  function DashStep(d: HubData, st: CharacterStats): (r: Decision)
    ensures r.target.Some? ==> r.target == Some(Dash) && r.data == d
    ensures r.target.None? ==> r.data == d || r.data == d.(dashToConsume := false)
  {
    if d.dashToConsume && d.canDash && st.canDashInAir then HandleDashAttempt(d, st)
    else Decision(None, d)
  }

  /** The coyote step of CheckSwitchStates: tried only when a jump is pending and coyote time allows it. */
  function CoyoteStep(d: HubData, st: CharacterStats): (r: Decision)
    ensures r.target.Some? ==> r.target == Some(Jump) && r.data == d
    ensures r.target.None? ==>
      (r.data == d || r.data == d.(jumpToConsume := false,
                                  calls := d.calls.(jumpBufferUses := d.calls.jumpBufferUses + 1)))
  {
    if d.jumpToConsume && d.canUseCoyote then HandleCoyoteJumpAttempt(d, st)
    else Decision(None, d)
  }

  /** CheckSwitchStates: landing first; then an air dash; then, unless that switched, a coyote jump. */
  function Check(d: HubData, st: CharacterStats): Decision
  {
    if d.grounded then Decision(Some(Grounded), d)
    else if DashStep(d, st).target.Some? then DashStep(d, st)
    else CoyoteStep(DashStep(d, st).data, st)
  }

  /** Gravity moves the vertical velocity toward -MaxFallSpeed by at most FallAcceleration * dt. */
  lemma GravityApproachesTerminalSpeed(d: HubData, st: CharacterStats, dt: real)
    requires NonNegativeRates(st) && dt > 0.0
    ensures var r := HandleGravity(d, st, dt);
      && r.frameVelocity.x == d.frameVelocity.x
      && Abs(r.frameVelocity.y - d.frameVelocity.y) <= st.fallAcceleration * dt
      && Between(d.frameVelocity.y, r.frameVelocity.y, -st.maxFallSpeed)
      && r.(frameVelocity := d.frameVelocity) == d
  {
    assert st.fallAcceleration * dt >= 0.0;
  }

  /** Landing wins: when grounded, Fall switches to Grounded and runs no dash or jump check. */
  lemma LandingHasPriority(d: HubData, st: CharacterStats)
    requires d.grounded
    ensures Check(d, st) == Decision(Some(Grounded), d)
  {
  }

  /**
   * An air dash is tried only when requested, available and allowed in the
   * air; with enough stamina it switches to Dash and writes nothing, without
   * it the dash intent is cleared and no Dash switch happens.
   */
  lemma AirDashIsStaminaGated(d: HubData, st: CharacterStats)
    requires !d.grounded && d.dashToConsume && d.canDash && st.canDashInAir
    ensures HasEnoughStamina(d, st.dashStaminaCost) ==> Check(d, st) == Decision(Some(Dash), d)
    ensures !HasEnoughStamina(d, st.dashStaminaCost) ==>
      Check(d, st).target != Some(Dash) && !Check(d, st).data.dashToConsume
  {
  }

  /** A failed dash attempt falls through to the coyote check in the same call. */
  lemma FailedDashFallsThrough(d: HubData, st: CharacterStats)
    requires !d.grounded && d.dashToConsume && d.canDash && st.canDashInAir
    requires !HasEnoughStamina(d, st.dashStaminaCost)
    requires d.jumpToConsume && d.canUseCoyote
    ensures Check(d, st) == HandleCoyoteJumpAttempt(d.(dashToConsume := false), st)
  {
  }

  /**
   * The coyote jump, when no dash switch happened: with enough stamina it
   * switches to Jump; without, the jump intent is cleared, the buffer used
   * once and nothing switches.
   */
  lemma CoyoteJumpIsStaminaGated(d: HubData, st: CharacterStats)
    requires !d.grounded && d.jumpToConsume && d.canUseCoyote
    requires !(d.dashToConsume && d.canDash && st.canDashInAir && HasEnoughStamina(d, st.dashStaminaCost))
    ensures HasEnoughStamina(d, st.jumpStaminaCost) ==> Check(d, st).target == Some(Jump)
    ensures !HasEnoughStamina(d, st.jumpStaminaCost) ==>
      && Check(d, st).target == None
      && !Check(d, st).data.jumpToConsume
      && Check(d, st).data.calls.jumpBufferUses == d.calls.jumpBufferUses + 1
  {
  }

  /**
   * Fall only ever switches to Grounded, Dash or Jump; a switch to Grounded
   * or Dash writes nothing first, and a coyote switch to Jump at most clears
   * the dash intent of the failed dash before it.
   */
  lemma SwitchTargets(d: HubData, st: CharacterStats)
    ensures var t := Check(d, st).target;
      t == None || t == Some(Grounded) || t == Some(Dash) || t == Some(Jump)
    ensures var t := Check(d, st).target;
      (t == Some(Grounded) || t == Some(Dash)) ==> Check(d, st).data == d
    ensures Check(d, st).target == Some(Jump) ==>
      Check(d, st).data == d || Check(d, st).data == d.(dashToConsume := false)
  {
  }

  /** Whatever it decides, Fall's check writes nothing but the two intents and the buffer token. */
  lemma WritesOnlyIntents(d: HubData, st: CharacterStats)
    ensures Check(d, st).data.frameVelocity == d.frameVelocity
    ensures Check(d, st).data.grounded == d.grounded
    ensures Check(d, st).data.canDash == d.canDash
    ensures Check(d, st).data.isDashing == d.isDashing
    ensures Check(d, st).data.canUseCoyote == d.canUseCoyote
    ensures Check(d, st).data.stamina == d.stamina
    ensures Check(d, st).data.calls.staminaConsumed == d.calls.staminaConsumed
    ensures Check(d, st).data.calls.coyoteUses == d.calls.coyoteUses
    ensures Check(d, st).data.calls.jumpBufferUses <= d.calls.jumpBufferUses + 1
  {
    if !d.grounded && DashStep(d, st).target.None? {
      var e := DashStep(d, st).data;
      assert e.calls == d.calls;
      assert Check(d, st) == CoyoteStep(e, st);
    }
  }
}
