/**
 * The engine as the game runs it: one context object, six flyweight state
 * objects created by a factory, and hooks that write the context's fields
 * and rewire the states' sub-state and super-state fields in place. Every
 * method is proved to change Factory.Abstract() exactly as the matching
 * function of MachineSpec says.
 */
module PlayerFsm {
  import opened Wrappers
  import opened UnityMath
  import opened PlayerInput
  import opened Hub
  import opened StatsConfig
  import opened MachineSpec
  import IdleState
  import RunState
  import GroundedState
  import JumpState
  import FallState
  import DashState

  /**
   * The context every state reads and writes (PlayerStateMachine): the
   * fields of both revisions, the stats asset, the current state, and the
   * ghost logs of collaborator calls and of lifecycle hooks.
   */
  class Context {
    var frameVelocity: Vec2
    var grounded: bool
    var jumpToConsume: bool
    var dashToConsume: bool
    var canDash: bool
    var isDashing: bool
    var canUseCoyote: bool
    var input: FrameInput
    var localScaleX: real
    var stamina: real
    var isJumpPressed: bool
    var isMovementPressed: bool
    var isRunPressed: bool
    var controllerGrounded: bool
    var currentMovementY: real
    var gravity: real
    var appliedMovementX: real
    var appliedMovementY: real
    var appliedMovementZ: real
    var currentSpeed: real
    ghost var calls: Calls
    const stats: CharacterStats
    var currentState: PlayerState?
    ghost var trace: seq<Hook>

    /** The context's hub fields as one value. */
    ghost function Data(): HubData
      reads this
    {
      HubData(frameVelocity, grounded, jumpToConsume, dashToConsume, canDash, isDashing,
              canUseCoyote, input, localScaleX, stamina,
              isJumpPressed, isMovementPressed, isRunPressed, controllerGrounded,
              currentMovementY, gravity, appliedMovementX, appliedMovementY, appliedMovementZ,
              currentSpeed, calls)
    }

    /** UseJumpBuffer: the buffered press is spent. */
    method UseJumpBuffer()
      modifies this`calls
      ensures calls == old(calls).(jumpBufferUses := old(calls).jumpBufferUses + 1)
    {
      calls := calls.(jumpBufferUses := calls.jumpBufferUses + 1);
    }

    /** UseCoyote: the coyote window is spent. */
    method UseCoyote()
      modifies this`calls
      ensures calls == old(calls).(coyoteUses := old(calls).coyoteUses + 1)
    {
      calls := calls.(coyoteUses := calls.coyoteUses + 1);
    }

    /** InvokeJumpEvent: one jump event fired. */
    method InvokeJumpEvent()
      modifies this`calls
      ensures calls == old(calls).(jumpEvents := old(calls).jumpEvents + 1)
    {
      calls := calls.(jumpEvents := calls.jumpEvents + 1);
    }

    /** InvokeDashEvent: one dash event fired. */
    method InvokeDashEvent()
      modifies this`calls
      ensures calls == old(calls).(dashEvents := old(calls).dashEvents + 1)
    {
      calls := calls.(dashEvents := calls.dashEvents + 1);
    }

    /** StartDashCooldown: the dash cooldown coroutine started. */
    method StartDashCooldown()
      modifies this`calls
      ensures calls == old(calls).(cooldownStarts := old(calls).cooldownStarts + 1)
    {
      calls := calls.(cooldownStarts := calls.cooldownStarts + 1);
    }

    /** The stats controller's ConsumeStamina: the amount is handed over. */
    method ConsumeStamina(amount: real)
      modifies this`calls
      ensures calls == old(calls).(staminaConsumed := old(calls).staminaConsumed + [amount])
    {
      calls := calls.(staminaConsumed := calls.staminaConsumed + [amount]);
    }

    /** The stats controller's RegenStamina: regeneration started. */
    method RegenStamina()
      modifies this`calls
      ensures calls == old(calls).(regenStarts := old(calls).regenStarts + 1)
    {
      calls := calls.(regenStarts := calls.regenStarts + 1);
    }

    /** The outside inputs of one tick, with this context's stats. */
    function At(now: real, dt: real): Env
    {
      Env(stats, now, dt)
    }

    /** A context holding the given hub values and stats, with no current state and an empty log. */
    constructor (d: HubData, st: CharacterStats)
      ensures Data() == d && stats == st && currentState == null && trace == []
    {
      frameVelocity, grounded, jumpToConsume, dashToConsume := d.frameVelocity, d.grounded, d.jumpToConsume, d.dashToConsume;
      canDash, isDashing, canUseCoyote, input := d.canDash, d.isDashing, d.canUseCoyote, d.input;
      localScaleX, stamina := d.localScaleX, d.stamina;
      isJumpPressed, isMovementPressed, isRunPressed := d.isJumpPressed, d.isMovementPressed, d.isRunPressed;
      controllerGrounded, currentMovementY, gravity := d.controllerGrounded, d.currentMovementY, d.gravity;
      appliedMovementX, appliedMovementY, appliedMovementZ := d.appliedMovementX, d.appliedMovementY, d.appliedMovementZ;
      currentSpeed, calls := d.currentSpeed, d.calls;
      stats := st;
      currentState := null;
      trace := [];
    }
  }

  /** The kind of a possibly-null state reference. */
  function KindOf(p: PlayerState?): Option<PlayerStates>
  {
    if p == null then None else Some(p.kind)
  }

  /** One flyweight state (PlayerBaseState and its six subclasses, told apart by `kind`). */
  class PlayerState {
    const kind: PlayerStates
    const isRoot: bool
    const context: Context
    const factory: Factory
    var subState: PlayerState?
    var superState: PlayerState?
    // PlayerDashState's private fields
    var dashStartTime: real
    var dashDirection: real

    constructor (k: PlayerStates, ctx: Context, f: Factory)
      ensures kind == k && isRoot == IsRootKind(k) && context == ctx && factory == f
      ensures subState == null && superState == null
      ensures dashStartTime == 0.0 && dashDirection == 0.0
    {
      kind, isRoot, context, factory := k, IsRootKind(k), ctx, f;
      subState, superState := null, null;
      dashStartTime, dashDirection := 0.0, 0.0;
    }

    /** This object is the factory's registered state of its kind. */
    ghost predicate InFactory()
      reads this, factory, factory.states.Values, factory.context
    {
      factory.Registered() && factory.Holds(kind) && factory.states[kind] == this
    }

    /** SetSuperState: only this state's super-state link changes. */
    method SetSuperState(s: PlayerState)
      requires InFactory() && s.InFactory() && s.factory == factory
      modifies this
      ensures factory.Registered()
      ensures var m := old(factory.Abstract());
        factory.Abstract() == m.(sup := m.sup.Set(kind, Some(s.kind)))
    {
      superState := s;
      forall k
        ensures factory.Holds(k)
      {
        assert old(factory.Holds(k));
      }
      factory.RegisteredIsComplete();
      LinksEqual(factory.SubLinks(), old(factory.SubLinks()));
      forall j
        ensures factory.SupLinks().Get(j) == old(factory.SupLinks()).Set(kind, Some(s.kind)).Get(j)
      {
        assert factory.Holds(j);
        if j != kind {
          assert factory.states[j] != this;
        }
      }
      LinksEqual(factory.SupLinks(), old(factory.SupLinks()).Set(kind, Some(s.kind)));
    }

    /** SetSubState: this state's sub-state becomes `c` and `c`'s super-state this state. */
    method SetSubState(c: PlayerState)
      requires InFactory() && c.InFactory() && c.factory == factory
      modifies this, c
      ensures factory.Registered()
      ensures factory.Abstract() == SetSub(old(factory.Abstract()), kind, c.kind)
    {
      ghost var m := factory.Abstract();
      subState := c;
      forall k
        ensures factory.Holds(k)
      {
        assert old(factory.Holds(k));
      }
      factory.RegisteredIsComplete();
      forall j
        ensures factory.SubLinks().Get(j) == m.sub.Set(kind, Some(c.kind)).Get(j)
      {
        assert factory.Holds(j);
        if j != kind {
          assert factory.states[j] != this;
        }
      }
      LinksEqual(factory.SubLinks(), m.sub.Set(kind, Some(c.kind)));
      LinksEqual(factory.SupLinks(), m.sup);
      assert factory.Abstract() == m.(sub := m.sub.Set(kind, Some(c.kind)));
      c.SetSuperState(this);
    }

    /** InitializeSubState: Grounded, Jump and Fall link the leaf their rule picks; Idle, Run and Dash do nothing. */
    method InitializeSubState()
      requires InFactory()
      modifies factory.states.Values
      ensures factory.Registered()
      ensures factory.Abstract() == InitializeSubSpec(old(factory.Abstract()), kind)
    {
      match kind
      case Grounded =>
        if !context.isMovementPressed && !context.isRunPressed {
          SetSubState(factory.StateOf(PlayerStates.Idle));
        } else {
          SetSubState(factory.StateOf(PlayerStates.Run));
        }
      case Jump =>
        if Abs(context.input.move.x) < JumpState.MoveDeadZone {
          SetSubState(factory.StateOf(PlayerStates.Idle));
        } else {
          SetSubState(factory.StateOf(PlayerStates.Run));
        }
      case Fall =>
        if Abs(context.input.move.x) < FallState.MoveDeadZone {
          SetSubState(factory.StateOf(PlayerStates.Idle));
        } else {
          SetSubState(factory.StateOf(PlayerStates.Run));
        }
      case _ =>
    }

    /** ExitState: logged; only Dash writes (dashing off, cooldown and regeneration started). */
    method ExitState()
      requires InFactory()
      modifies context
      ensures factory.Registered()
      ensures factory.Abstract() == ExitSpec(old(factory.Abstract()), kind)
    {
      ghost var d := context.Data();
      context.trace := context.trace + [Exited(kind)];
      if kind == PlayerStates.Dash {
        context.isDashing := false;
        context.StartDashCooldown();
        context.RegenStamina();
        assert context.Data() == DashState.Exit(d);
      } else {
        assert context.Data() == d;
      }
      factory.LinksKept();
    }

    /** SetDashDirection: the sign of the horizontal input, or of the facing scale when there is none. */
    method SetDashDirection()
      modifies this`dashDirection
      ensures dashDirection == DashState.Direction(context.Data())
    {
      if context.input.move.x != 0.0 {
        dashDirection := Sign(context.input.move.x);
      } else {
        dashDirection := Sign(context.localScaleX);
      }
    }

    /** ApplyDashVelocity: the direction times the dash power horizontally, zero vertically. */
    method ApplyDashVelocity()
      modifies context`frameVelocity
      ensures context.frameVelocity == DashState.Velocity(dashDirection, context.stats)
    {
      context.frameVelocity := Vec2(dashDirection * context.stats.dashPower, 0.0);
    }

    /** PlayerIdleState.EnterState's writes: no applied horizontal movement. */
    method EnterIdle()
      modifies context
      ensures context.Data() == IdleState.Enter(old(context.Data()))
      ensures context.trace == old(context.trace) && context.currentState == old(context.currentState)
    {
      context.appliedMovementX := 0.0;
      context.appliedMovementZ := 0.0;
    }

    /** PlayerRunState.EnterState's writes: the run speed. */
    method EnterRun()
      modifies context
      ensures context.Data() == RunState.Enter(old(context.Data()))
      ensures context.trace == old(context.trace) && context.currentState == old(context.currentState)
    {
      context.currentSpeed := RunSpeed;
    }

    /** PlayerGroundedState.EnterState's writes (its HandleGravity): the vertical movement becomes the gravity. */
    method EnterGrounded()
      modifies context
      ensures context.Data() == GroundedState.Enter(old(context.Data()))
      ensures context.trace == old(context.trace) && context.currentState == old(context.currentState)
    {
      context.currentMovementY := context.gravity;
    }

    /** PlayerJumpState.EnterState's writes before its InitializeSubState, ExecuteJumpImpulse included. */
    method EnterJump()
      modifies context
      ensures context.Data() == JumpState.Enter(old(context.Data()), context.stats)
      ensures context.trace == old(context.trace) && context.currentState == old(context.currentState)
    {
      context.jumpToConsume := false;
      context.UseJumpBuffer();
      context.UseCoyote();
      // ExecuteJumpImpulse
      context.frameVelocity := Vec2(context.frameVelocity.x, context.stats.jumpPower);
      context.ConsumeStamina(context.stats.jumpStaminaCost);
      context.InvokeJumpEvent();
    }

    /** PlayerDashState.EnterState's writes before its InitializeSubState. */
    method EnterDash(now: real)
      modifies context, this`dashStartTime, this`dashDirection
      ensures dashStartTime == now && dashDirection == DashState.Direction(old(context.Data()))
      ensures context.Data() == DashState.Enter(old(context.Data()), context.stats, dashDirection)
      ensures context.trace == old(context.trace) && context.currentState == old(context.currentState)
    {
      context.dashToConsume := false;
      dashStartTime := now;
      context.isDashing := true;
      context.canDash := false;
      context.ConsumeStamina(context.stats.dashStaminaCost);
      context.InvokeDashEvent();
      SetDashDirection();
      ApplyDashVelocity();
    }

    /** EnterState: logged; the state's own writes; then, for the four roots, InitializeSubState. */
    method EnterState(now: real, dt: real)
      requires InFactory()
      modifies context, factory.states.Values
      ensures factory.Registered()
      ensures factory.Abstract() == EnterSpec(old(factory.Abstract()), kind, context.At(now, dt))
    {
      ghost var m := factory.Abstract();
      context.trace := context.trace + [Entered(kind)];
      match kind {
        case Idle => EnterIdle();
        case Run => EnterRun();
        case Grounded => EnterGrounded();
        case Jump => EnterJump();
        case Fall =>
        case Dash => EnterDash(now);
      }
      factory.LinksKept();
      assert factory.Abstract() == EnterOwn(m.(trace := m.trace + [Entered(kind)]), kind, context.At(now, dt));
      if isRoot {
        InitializeSubState();
      }
    }

    /**
     * SwitchState: exit this state, enter the new one, then make it current
     * (this state a root) or hand it to this state's super-state, as that
     * link reads after the entry (this state a leaf).
     */
    method SwitchState(newState: PlayerState, now: real, dt: real)
      requires InFactory() && newState.InFactory() && newState.factory == factory
      modifies context, factory.states.Values
      ensures factory.Registered()
      ensures factory.Abstract() == SwitchSpec(old(factory.Abstract()), kind, newState.kind, context.At(now, dt))
    {
      ghost var m := factory.Abstract();
      ExitState();
      assert newState.InFactory();
      newState.EnterState(now, dt);
      assert factory.Abstract() == EnterSpec(ExitSpec(m, kind), newState.kind, context.At(now, dt));
      if isRoot {
        SetCurrentState(newState);
      } else if superState != null {
        assert factory.Holds(kind);
        var parent := superState;
        assert factory.Member(parent);
        assert factory.Holds(parent.kind);
        assert parent.InFactory();
        parent.SetSubState(newState);
      }
    }

    /** The context's CurrentState setter: only the current state changes. */
    method SetCurrentState(s: PlayerState)
      requires InFactory() && s.InFactory() && s.factory == factory
      modifies context`currentState
      ensures factory.Registered()
      ensures factory.Abstract() == old(factory.Abstract()).(current := Some(s.kind))
    {
      ghost var d := context.Data();
      factory.RegisteredIsComplete();
      context.currentState := s;
      assert factory.Member(context.currentState);
      assert context.Data() == d;
      assert factory.SubLinks() == old(factory.SubLinks());
      assert factory.SupLinks() == old(factory.SupLinks());

    }

    /** PlayerJumpState.HandleGravity: toward the terminal speed, faster once the button is released while rising. */
    method HandleJumpGravity(dt: real)
      modifies context`frameVelocity
      ensures context.Data() == JumpState.HandleGravity(old(context.Data()), context.stats, dt)
    {
      ghost var d := context.Data();
      var gravity := context.stats.fallAcceleration;
      if !context.input.jumpHeld && context.frameVelocity.y > 0.0 {
        gravity := gravity * context.stats.jumpEndEarlyGravityModifier;
      }
      assert gravity == JumpState.GravityRate(d, context.stats);
      var newY := MoveTowards(context.frameVelocity.y, -context.stats.maxFallSpeed, gravity * dt);
      assert Vec2(context.frameVelocity.x, newY) == JumpState.HandleGravity(d, context.stats, dt).frameVelocity;
      context.frameVelocity := Vec2(context.frameVelocity.x, newY);
    }

    /** PlayerFallState.HandleGravity: toward the terminal speed at the fall acceleration. */
    method HandleFallGravity(dt: real)
      modifies context`frameVelocity
      ensures context.Data() == FallState.HandleGravity(old(context.Data()), context.stats, dt)
    {
      ghost var d := context.Data();
      var speedWithGravity := MoveTowards(context.frameVelocity.y, -context.stats.maxFallSpeed,
                                          context.stats.fallAcceleration * dt);
      assert Vec2(context.frameVelocity.x, speedWithGravity) == FallState.HandleGravity(d, context.stats, dt).frameVelocity;
      context.frameVelocity := Vec2(context.frameVelocity.x, speedWithGravity);
    }

    /** PlayerFallState.HandleDashAttempt: enough stamina switches to Dash, otherwise the dash intent is dropped. */
    method HandleDashAttempt(now: real, dt: real) returns (switched: bool)
      requires kind == PlayerStates.Fall && InFactory()
      modifies context, factory.states.Values
      ensures switched == HasEnoughStamina(old(context.Data()), context.stats.dashStaminaCost)
      ensures factory.Registered()
      ensures var m := old(factory.Abstract());
        factory.Abstract() == Resolve(m, kind, FallState.HandleDashAttempt(m.data, context.stats), context.At(now, dt))
    {
      if context.stamina >= context.stats.dashStaminaCost {
        SwitchState(factory.StateOf(PlayerStates.Dash), now, dt);
        return true;
      }
      context.dashToConsume := false;
      factory.LinksKept();
      return false;
    }

    /** PlayerFallState.HandleCoyoteJumpAttempt: enough stamina switches to Jump, otherwise the intent is dropped and the buffer used. */
    method HandleCoyoteJumpAttempt(now: real, dt: real)
      requires kind == PlayerStates.Fall && InFactory()
      modifies context, factory.states.Values
      ensures factory.Registered()
      ensures var m := old(factory.Abstract());
        factory.Abstract() == Resolve(m, kind, FallState.HandleCoyoteJumpAttempt(m.data, context.stats), context.At(now, dt))
    {
      ghost var d := context.Data();
      if context.stamina >= context.stats.jumpStaminaCost {
        SwitchState(factory.StateOf(PlayerStates.Jump), now, dt);
      } else {
        context.jumpToConsume := false;
        context.UseJumpBuffer();
        assert context.Data() == FallState.HandleCoyoteJumpAttempt(d, context.stats).data;
        factory.LinksKept();
      }
    }

    /** PlayerFallState.CheckSwitchStates: landing first, then an air dash, then a coyote jump. */
    method CheckFall(now: real, dt: real)
      requires kind == PlayerStates.Fall && InFactory()
      modifies context, factory.states.Values
      ensures factory.Registered()
      ensures var m := old(factory.Abstract());
        factory.Abstract() == Resolve(m, kind, FallState.Check(m.data, context.stats), context.At(now, dt))
    {
      if context.grounded {
        SwitchState(factory.StateOf(PlayerStates.Grounded), now, dt);
        return;
      }
      if context.dashToConsume && context.canDash && context.stats.canDashInAir {
        var switched := HandleDashAttempt(now, dt);
        if switched {
          return;
        }
      }
      if context.jumpToConsume && context.canUseCoyote {
        HandleCoyoteJumpAttempt(now, dt);
      }
    }

    /** PlayerIdleState.CheckSwitchStates: movement with run pressed switches to Run. */
    method CheckIdle(now: real, dt: real)
      requires kind == PlayerStates.Idle && InFactory()
      modifies context, factory.states.Values
      ensures factory.Registered()
      ensures var m := old(factory.Abstract());
        factory.Abstract() == Resolve(m, kind, IdleState.Check(m.data), context.At(now, dt))
    {
      if context.isMovementPressed && context.isRunPressed {
        SwitchState(factory.StateOf(PlayerStates.Run), now, dt);
      } else {
        factory.LinksKept();
      }
    }

    /** PlayerRunState.CheckSwitchStates: releasing movement switches to Idle. */
    method CheckRun(now: real, dt: real)
      requires kind == PlayerStates.Run && InFactory()
      modifies context, factory.states.Values
      ensures factory.Registered()
      ensures var m := old(factory.Abstract());
        factory.Abstract() == Resolve(m, kind, RunState.Check(m.data), context.At(now, dt))
    {
      if !context.isMovementPressed {
        SwitchState(factory.StateOf(PlayerStates.Idle), now, dt);
      } else {
        factory.LinksKept();
      }
    }

    /** PlayerGroundedState.CheckSwitchStates: a jump press switches to Jump, losing the ground to Fall. */
    method CheckGrounded(now: real, dt: real)
      requires kind == PlayerStates.Grounded && InFactory()
      modifies context, factory.states.Values
      ensures factory.Registered()
      ensures var m := old(factory.Abstract());
        factory.Abstract() == Resolve(m, kind, GroundedState.Check(m.data), context.At(now, dt))
    {
      if context.isJumpPressed {
        SwitchState(factory.StateOf(PlayerStates.Jump), now, dt);
      } else if !context.controllerGrounded {
        SwitchState(factory.StateOf(PlayerStates.Fall), now, dt);
      } else {
        factory.LinksKept();
      }
    }

    /** PlayerJumpState.CheckSwitchStates: no longer rising switches to Fall. */
    method CheckJump(now: real, dt: real)
      requires kind == PlayerStates.Jump && InFactory()
      modifies context, factory.states.Values
      ensures factory.Registered()
      ensures var m := old(factory.Abstract());
        factory.Abstract() == Resolve(m, kind, JumpState.Check(m.data), context.At(now, dt))
    {
      if context.frameVelocity.y <= 0.0 {
        SwitchState(factory.StateOf(PlayerStates.Fall), now, dt);
      } else if context.grounded && context.frameVelocity.y <= JumpState.LandingSpeed {
        // Unreachable: a rising velocity is never at or below LandingSpeed
        // (JumpState.NeverSwitchesToGrounded), so the switch to Grounded never runs.
        assert false;
      } else {
        factory.LinksKept();
      }
    }

    /** PlayerDashState.CheckSwitchStates: once the dash has lasted its duration, TransitionAfterDash. */
    method CheckDash(now: real, dt: real)
      requires kind == PlayerStates.Dash && InFactory()
      modifies context, factory.states.Values
      ensures factory.Registered()
      ensures var m := old(factory.Abstract());
        factory.Abstract() == Resolve(m, kind, DashState.Check(m.data, now, dashStartTime, context.stats), context.At(now, dt))
    {
      if now >= dashStartTime + context.stats.dashDuration {
        // TransitionAfterDash
        if context.grounded {
          SwitchState(factory.StateOf(PlayerStates.Grounded), now, dt);
        } else {
          SwitchState(factory.StateOf(PlayerStates.Fall), now, dt);
        }
      } else {
        factory.LinksKept();
      }
    }

    /** CheckSwitchStates of each kind: at most one switch, to the target its rule names. */
    method CheckSwitchStates(now: real, dt: real)
      requires InFactory()
      modifies context, factory.states.Values
      ensures factory.Registered()
      ensures factory.Abstract() == CheckSpec(old(factory.Abstract()), kind, context.At(now, dt))
    {
      ghost var m := factory.Abstract();
      ghost var env := context.At(now, dt);
      DecideKeepsLevel(m, kind, env);
      match kind {
        case Idle => CheckIdle(now, dt);
        case Run => CheckRun(now, dt);
        case Grounded => CheckGrounded(now, dt);
        case Jump => CheckJump(now, dt);
        case Fall => CheckFall(now, dt);
        case Dash =>
          assert m.dashStartTime == dashStartTime;
          CheckDash(now, dt);
      }
    }

    /** UpdateState: logged; Jump and Fall apply gravity and Dash holds its velocity; then CheckSwitchStates. */
    method UpdateState(now: real, dt: real)
      requires InFactory()
      modifies context, factory.states.Values
      ensures factory.Registered()
      ensures factory.Abstract() == UpdateStateSpec(old(factory.Abstract()), kind, context.At(now, dt))
    {
      ghost var m := factory.Abstract();
      ghost var d := context.Data();
      context.trace := context.trace + [Updated(kind)];
      assert context.Data() == d;
      factory.LinksKept();
      HandlePhysics(now, dt);
      CheckSwitchStates(now, dt);
    }

    /** The physics step of UpdateState: gravity for Jump and Fall, the held velocity for Dash, nothing for the rest. */
    method HandlePhysics(now: real, dt: real)
      requires InFactory()
      modifies context
      ensures factory.Registered()
      ensures factory.Abstract() == Physics(old(factory.Abstract()), kind, context.At(now, dt))
    {
      match kind {
        case Jump => HandleJumpGravity(dt);
        case Fall => HandleFallGravity(dt);
        case Dash => ApplyDashVelocity();
        case _ =>
      }
      factory.LinksKept();
    }

    /**
     * UpdateStates: this state's update, then its sub-state's, following the
     * sub-state link as it reads after the update.
     */
    method UpdateStates(now: real, dt: real)
      requires InFactory() && WellFormed(factory.Abstract())
      modifies context, factory.states.Values
      ensures factory.Valid()
      ensures factory.Abstract() == UpdateStatesSpec(old(factory.Abstract()), kind, context.At(now, dt))
      decreases if isRoot then 1 else 0
    {
      ghost var m := factory.Abstract();
      ghost var env := context.At(now, dt);
      UpdateState(now, dt);
      ghost var m1 := factory.Abstract();
      assert WellFormed(m1);
      assert factory.Holds(kind);
      assert m1.sub.Get(kind) == KindOf(subState);
      UpdateStatesStep(m, kind, env);
      if subState != null {
        var child := subState;
        assert factory.Holds(child.kind);
        assert !child.isRoot;
        child.UpdateStates(now, dt);
      }
    }
  }

  /** PlayerStateFactory: registers one instance per kind and hands out the same one on every request. */
  class Factory {
    const context: Context
    var states: map<PlayerStates, PlayerState>

    /** `p` is null or the registered instance of its kind. */
    ghost predicate Member(p: PlayerState?)
      reads this
    {
      p == null || (p.kind in states && states[p.kind] == p)
    }

    /**
     * Kind `k` is registered to an instance of that kind, with the root flag
     * of its kind, holding this factory and its context, whose two links are
     * null or registered instances.
     */
    ghost predicate Holds(k: PlayerStates)
      reads this, states.Values
    {
      && k in states
      && states[k].kind == k && states[k].isRoot == IsRootKind(k)
      && states[k].context == context && states[k].factory == this
      && Member(states[k].subState) && Member(states[k].superState)
    }

    /** Every kind holds, and the context's current state is null or registered. */
    ghost predicate Registered()
      reads this, states.Values, context
    {
      (forall k :: Holds(k)) && Member(context.currentState)
    }

    /** The registered state of kind `k` (the accessors Idle() to Fall()). */
    function StateOf(k: PlayerStates): (r: PlayerState)
      reads this, states.Values
      requires Holds(k)
      ensures r == states[k] && r.kind == k && r.factory == this
    {
      states[k]
    }

    /** All six kinds have an instance. */
    ghost predicate Complete()
      reads this
    {
      forall k :: k in states
    }

    lemma RegisteredIsComplete()
      requires Registered()
      ensures Complete()
    {
      forall k: PlayerStates
        ensures k in states
      {
        assert Holds(k);
      }
    }

    /** The sub-state links, by kind. */
    ghost function SubLinks(): (r: Links)
      reads this, states.Values
      requires Complete()
      ensures forall k :: r.Get(k) == KindOf(states[k].subState)
    {
      Links(KindOf(states[PlayerStates.Idle].subState), KindOf(states[PlayerStates.Run].subState),
            KindOf(states[PlayerStates.Grounded].subState), KindOf(states[PlayerStates.Jump].subState),
            KindOf(states[PlayerStates.Dash].subState), KindOf(states[PlayerStates.Fall].subState))
    }

    /** The super-state links, by kind. */
    ghost function SupLinks(): (r: Links)
      reads this, states.Values
      requires Complete()
      ensures forall k :: r.Get(k) == KindOf(states[k].superState)
    {
      Links(KindOf(states[PlayerStates.Idle].superState), KindOf(states[PlayerStates.Run].superState),
            KindOf(states[PlayerStates.Grounded].superState), KindOf(states[PlayerStates.Jump].superState),
            KindOf(states[PlayerStates.Dash].superState), KindOf(states[PlayerStates.Fall].superState))
    }

    /** The machine these objects represent. */
    ghost function Abstract(): Machine
      reads this, states.Values, context
      requires Registered()
    {
      RegisteredIsComplete();
      Machine(
        context.Data(),
        KindOf(context.currentState),
        SubLinks(),
        SupLinks(),
        states[PlayerStates.Dash].dashStartTime,
        states[PlayerStates.Dash].dashDirection,
        context.trace)
    }

    /**
     * When no state's links and not the current state change, the objects
     * stay registered and the machine changes only in the hub, the log and
     * Dash's two fields.
     */
    twostate lemma LinksKept()
      requires old(Registered()) && unchanged(this)
      requires context.currentState == old(context.currentState)
      requires forall p :: p in states.Values ==> p.subState == old(p.subState) && p.superState == old(p.superState)
      ensures Registered()
      ensures Complete()
      ensures var m := old(Abstract());
        Abstract() == m.(data := context.Data(), trace := context.trace,
                         dashStartTime := states[PlayerStates.Dash].dashStartTime,
                         dashDirection := states[PlayerStates.Dash].dashDirection)
    {
      forall k
        ensures Holds(k)
      {
        assert old(Holds(k));
      }
      RegisteredIsComplete();
      LinksEqual(SubLinks(), old(SubLinks()));
      LinksEqual(SupLinks(), old(SupLinks()));
    }

    /** Registered, and the hierarchy's levels hold. */
    ghost predicate Valid()
      reads this, states.Values, context
    {
      Registered() && WellFormed(Abstract())
    }

    /** Registers six fresh states of the six kinds, all links null. */
    constructor (ctx: Context)
      requires ctx.currentState == null
      ensures context == ctx && Registered() && fresh(states.Values)
      ensures Abstract() == Machine(ctx.Data(), None, NoLinks, NoLinks, 0.0, 0.0, ctx.trace)
    {
      context := ctx;
      states := map[];
      new;
      var idle := new PlayerState(PlayerStates.Idle, ctx, this);
      var run := new PlayerState(PlayerStates.Run, ctx, this);
      var jump := new PlayerState(PlayerStates.Jump, ctx, this);
      var dash := new PlayerState(PlayerStates.Dash, ctx, this);
      var grounded := new PlayerState(PlayerStates.Grounded, ctx, this);
      var fall := new PlayerState(PlayerStates.Fall, ctx, this);
      states := map[PlayerStates.Idle := idle, PlayerStates.Run := run, PlayerStates.Jump := jump,
                    PlayerStates.Dash := dash, PlayerStates.Grounded := grounded, PlayerStates.Fall := fall];
      forall k: PlayerStates
        ensures Holds(k)
      {
        match k
        case Idle => case Run => case Grounded => case Jump => case Dash => case Fall =>
      }
    }
  }
}
