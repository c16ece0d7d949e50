/** The Dash root (2D revision): fixed horizontal burst, no gravity, no leaf, timed exit. */
module DashState {
  import opened Wrappers
  import opened UnityMath
  import opened PlayerInput
  import opened Hub
  import opened StatsConfig

  /** SetDashDirection: the sign of the horizontal input, or of the facing scale without input. */
  function Direction(d: HubData): (r: real)
    ensures r == 1.0 || r == -1.0
    ensures d.input.move.x > 0.0 ==> r == 1.0
    ensures d.input.move.x < 0.0 ==> r == -1.0
    ensures d.input.move.x == 0.0 ==> r == Sign(d.localScaleX)
  {
    if d.input.move.x != 0.0 then Sign(d.input.move.x) else Sign(d.localScaleX)
  }

  /** ApplyDashVelocity's velocity: the direction times the dash power, vertical zero. */
  function Velocity(dir: real, st: CharacterStats): Vec2
  {
    Vec2(dir * st.dashPower, 0.0)
  }

  /**
   * EnterState's writes to the hub: the dash intent cleared, dashing on and
   * dash unavailable, the dash cost consumed, the dash event fired, and the
   * dash velocity applied.
   */
  function Enter(d: HubData, st: CharacterStats, dir: real): HubData
  {
    var c := d.calls;
    d.(dashToConsume := false, isDashing := true, canDash := false,
       calls := c.(staminaConsumed := c.staminaConsumed + [st.dashStaminaCost],
                   dashEvents := c.dashEvents + 1),
       frameVelocity := Velocity(dir, st))
  }

  /** UpdateState's ApplyDashVelocity. */
  function ApplyVelocity(d: HubData, dir: real, st: CharacterStats): HubData
  {
    d.(frameVelocity := Velocity(dir, st))
  }

  /** ExitState: dashing off, the cooldown started and the regeneration started. */
  function Exit(d: HubData): HubData
  {
    var c := d.calls;
    d.(isDashing := false,
       calls := c.(cooldownStarts := c.cooldownStarts + 1, regenStarts := c.regenStarts + 1))
  }

  /** CheckSwitchStates: once the duration has elapsed, to Grounded on contact, else to Fall. */
  function Check(d: HubData, now: real, startTime: real, st: CharacterStats): Decision
  {
    if now >= startTime + st.dashDuration then
      Decision(Some(if d.grounded then Grounded else Fall), d)
    else Decision(None, d)
  }

  /**
   * Entering Dash clears the intent, sets dashing and clears availability,
   * consumes the dash cost once, fires one dash event and moves at
   * (dir * DashPower, 0).
   */
  lemma EnterStartsDash(d: HubData, st: CharacterStats)
    ensures var r := Enter(d, st, Direction(d));
      && !r.dashToConsume && r.isDashing && !r.canDash
      && r.calls.staminaConsumed == d.calls.staminaConsumed + [st.dashStaminaCost]
      && r.calls.dashEvents == d.calls.dashEvents + 1
      && r.calls.jumpEvents == d.calls.jumpEvents
      && r.frameVelocity.y == 0.0
      && (r.frameVelocity.x == st.dashPower || r.frameVelocity.x == -st.dashPower)
  {
  }

  /** Every update during a dash holds the velocity at (dir * DashPower, 0). */
  lemma UpdateHoldsDashVelocity(d: HubData, dir: real, st: CharacterStats)
    ensures ApplyVelocity(d, dir, st).frameVelocity == Vec2(dir * st.dashPower, 0.0)
    ensures ApplyVelocity(d, dir, st).(frameVelocity := d.frameVelocity) == d
  {
  }

  /** Leaving Dash turns dashing off and starts the cooldown and the regeneration once each. */
  lemma ExitStartsCooldown(d: HubData)
    ensures !Exit(d).isDashing
    ensures Exit(d).calls.cooldownStarts == d.calls.cooldownStarts + 1
    ensures Exit(d).calls.regenStarts == d.calls.regenStarts + 1
    ensures Exit(d).canDash == d.canDash
  {
  }

  /**
   * No transition before the duration has elapsed; afterwards exactly one,
   * to Grounded on contact and to Fall otherwise.
   */
  lemma EndsAfterDuration(d: HubData, now: real, startTime: real, st: CharacterStats)
    ensures now < startTime + st.dashDuration <==> Check(d, now, startTime, st).target == None
    ensures now >= startTime + st.dashDuration ==>
      Check(d, now, startTime, st).target == Some(if d.grounded then Grounded else Fall)
    ensures Check(d, now, startTime, st).data == d
  {
  }
}
