/** The Jump root (2D revision): impulse on entry, variable-height gravity, then Fall. */
module JumpState {
  import opened Wrappers
  import opened UnityMath
  import opened PlayerInput
  import opened Hub
  import opened StatsConfig

  /** Horizontal input below this magnitude counts as none when choosing the leaf. */
  const MoveDeadZone: real := 0.01

  /** The Grounded branch's vertical-speed bound. */
  const LandingSpeed: real := -0.1

  /**
   * EnterState before its InitializeSubState: the jump intent is cleared, the
   * buffer and coyote tokens are used, and ExecuteJumpImpulse sets the
   * vertical velocity to the jump power, consumes the jump's stamina cost
   * and fires the jump event.
   */
  function Enter(d: HubData, st: CharacterStats): HubData
  {
    var c := d.calls;
    d.(jumpToConsume := false,
       frameVelocity := Vec2(d.frameVelocity.x, st.jumpPower),
       calls := c.(jumpBufferUses := c.jumpBufferUses + 1,
                   coyoteUses := c.coyoteUses + 1,
                   staminaConsumed := c.staminaConsumed + [st.jumpStaminaCost],
                   jumpEvents := c.jumpEvents + 1))
  }

  /** InitializeSubState: Idle for (almost) no horizontal input, Run otherwise. */
  function InitialSub(d: HubData): PlayerStates
  {
    if Abs(d.input.move.x) < MoveDeadZone then Idle else Run
  }

  /** The gravity HandleGravity uses: multiplied when the button is released while rising. */
  function GravityRate(d: HubData, st: CharacterStats): real
  {
    if !d.input.jumpHeld && d.frameVelocity.y > 0.0 then
      st.fallAcceleration * st.jumpEndEarlyGravityModifier
    else st.fallAcceleration
  }

  /** HandleGravity: vertical velocity moves toward the terminal fall speed. */
  function HandleGravity(d: HubData, st: CharacterStats, dt: real): HubData
  {
    var vy := MoveTowards(d.frameVelocity.y, -st.maxFallSpeed, GravityRate(d, st) * dt);
    d.(frameVelocity := Vec2(d.frameVelocity.x, vy))
  }

  /** CheckSwitchStates: not rising to Fall, else (landing while descending) to Grounded. */
  function Check(d: HubData): Decision
  {
    if d.frameVelocity.y <= 0.0 then Decision(Some(Fall), d)
    else if d.grounded && d.frameVelocity.y <= LandingSpeed then Decision(Some(Grounded), d)
    else Decision(None, d)
  }

  /**
   * Entering Jump sets the vertical velocity to the jump power and keeps the
   * horizontal one, clears the jump intent, uses each token once, consumes the
   * jump cost once and fires one jump event.
   */
  lemma EnterAppliesImpulse(d: HubData, st: CharacterStats)
    ensures var r := Enter(d, st);
      && r.frameVelocity == Vec2(d.frameVelocity.x, st.jumpPower)
      && !r.jumpToConsume
      && r.calls.jumpBufferUses == d.calls.jumpBufferUses + 1
      && r.calls.coyoteUses == d.calls.coyoteUses + 1
      && r.calls.jumpEvents == d.calls.jumpEvents + 1
      && r.calls.staminaConsumed == d.calls.staminaConsumed + [st.jumpStaminaCost]
      && r.calls.dashEvents == d.calls.dashEvents
      && r.(frameVelocity := d.frameVelocity, jumpToConsume := d.jumpToConsume, calls := d.calls) == d
  {
  }

  /** The early-release multiplier applies exactly when the button is up while still rising. */
  lemma GravityEndsJumpEarly(d: HubData, st: CharacterStats)
    requires st.jumpEndEarlyGravityModifier != 1.0 && st.fallAcceleration != 0.0
    ensures GravityRate(d, st) == st.fallAcceleration * st.jumpEndEarlyGravityModifier
        <==> !d.input.jumpHeld && d.frameVelocity.y > 0.0
  {
  }

  /**
   * Gravity moves the vertical velocity toward -MaxFallSpeed by at most
   * gravity * dt without overshooting, and never touches the horizontal one.
   */
  lemma GravityApproachesTerminalSpeed(d: HubData, st: CharacterStats, dt: real)
    requires NonNegativeRates(st) && dt > 0.0
    ensures var r := HandleGravity(d, st, dt);
      && r.frameVelocity.x == d.frameVelocity.x
      && Abs(r.frameVelocity.y - d.frameVelocity.y) <= GravityRate(d, st) * dt
      && Between(d.frameVelocity.y, r.frameVelocity.y, -st.maxFallSpeed)
      && r.(frameVelocity := d.frameVelocity) == d
  {
    var rate := GravityRate(d, st);
    assert rate >= 0.0 by {
      if !d.input.jumpHeld && d.frameVelocity.y > 0.0 {
        assert rate == st.fallAcceleration * st.jumpEndEarlyGravityModifier;
      }
    }
    assert rate * dt >= 0.0;
  }

  /**
   * Jump never switches straight to Grounded: that branch needs a vertical
   * speed of at most -0.1, which the Fall branch before it already takes.
   */
  lemma NeverSwitchesToGrounded(d: HubData)
    ensures Check(d).target != Some(Grounded)
  {
  }

  /** Jump switches (to Fall) exactly when it stopped rising, and stays while rising. */
  lemma FallsIffNotRising(d: HubData)
    ensures Check(d).target == Some(Fall) <==> d.frameVelocity.y <= 0.0
    ensures Check(d).target == None <==> d.frameVelocity.y > 0.0
    ensures Check(d).data == d
  {
  }
}
