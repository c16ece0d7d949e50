/**
 * The monolithic 2D movement controller: one fixed sequence per physics step
 * (contacts, jump, horizontal speed, gravity, apply) over a handful of mutable
 * fields, plus the per-frame input sample.
 *
 * The engine's side of the exchange is passed in: what the input polls report
 * (`RawInput`), what the two capsule casts found (`Contacts`), the vertical
 * speed the rigidbody reports, and the frame and physics time steps. The
 * events are logged in order, and so are the stamina amounts handed to the
 * stats controller; regeneration starts are only counted.
 */
module Controller {
  import opened UnityMath
  import opened StatsConfig
  import opened PlayerInput

  /** What the input polls report in one frame: the Jump button, the input manager's jump flag, the raw axes. */
  datatype RawInput = RawInput(jumpButtonDown: bool, jumpButtonHeld: bool, managerJump: bool, axes: Vec2)

  /** What the downward and upward capsule casts found. */
  datatype Contacts = Contacts(groundHit: bool, ceilingHit: bool)

  /** The controller's two public events, with their payloads. */
  datatype Event = GroundedChanged(grounded: bool, impact: real) | Jumped

  /** The controller's fields as one value, with the events and stats-controller calls it has made. */
  datatype Body = Body(
    frameInput: FrameInput,
    frameVelocity: Vec2,
    rbVelocity: Vec2,           // the velocity last written to the rigidbody
    time: real,
    controlDisabled: bool,
    frameLeftGrounded: real,
    grounded: bool,
    jumpToConsume: bool,
    bufferedJumpUsable: bool,
    endedJumpEarly: bool,
    coyoteUsable: bool,
    timeJumpWasPressed: real,
    events: seq<Event>,
    regenStarts: nat,
    staminaConsumed: seq<real>)

  /** The field initialisers: everything zero or false, except the time the ground was left. */
  const Initial: Body := Body(NoInput, Zero, Zero, 0.0, false, FloatMinValue, false,
                              false, false, false, false, 0.0, [], 0, [])

  /** The stamina every jump hands to the stats controller (a literal, not the asset's jump cost). */
  const JumpStamina: real := 10.0

  // ---------------------------------------------------------------- input

  /** One snapped axis: zero inside the dead zone, otherwise the unit in the axis' direction. */
  function SnapAxis(v: real, threshold: real): (r: real)
    ensures r == 0.0 || r == 1.0 || r == -1.0
    ensures r == 0.0 <==> Abs(v) < threshold
    ensures r != 0.0 ==> r * v == Abs(v)
  {
    if Abs(v) < threshold then 0.0 else Sign(v)
  }

  /** The frame's input sample, snapped when the asset asks for it. */
  function Sample(raw: RawInput, st: CharacterStats): (r: FrameInput)
    ensures r.jumpDown == (raw.jumpButtonDown || raw.managerJump)
    ensures r.jumpHeld == (raw.jumpButtonHeld || raw.managerJump)
    ensures st.snapInput ==> r.move.x in {-1.0, 0.0, 1.0} && r.move.y in {-1.0, 0.0, 1.0}
    ensures st.snapInput ==>
      r.move == Vec2(SnapAxis(raw.axes.x, st.horizontalDeadZoneThreshold),
                     SnapAxis(raw.axes.y, st.verticalDeadZoneThreshold))
    ensures !st.snapInput ==> r.move == raw.axes
  {
    var move :=
      if st.snapInput
      then Vec2(SnapAxis(raw.axes.x, st.horizontalDeadZoneThreshold),
                SnapAxis(raw.axes.y, st.verticalDeadZoneThreshold))
      else raw.axes;
    FrameInput(raw.jumpButtonDown || raw.managerJump, raw.jumpButtonHeld || raw.managerJump, move)
  }

  /** GatherInput: store the sample; a press arms the jump intent and stamps the press time. */
  function GatherInputSpec(b: Body, raw: RawInput, st: CharacterStats): (r: Body)
    ensures r.frameInput == Sample(raw, st)
    ensures r.frameInput.jumpDown ==> r.jumpToConsume && r.timeJumpWasPressed == b.time
    ensures !r.frameInput.jumpDown ==> r == b.(frameInput := r.frameInput)
    ensures r.(frameInput := b.frameInput, jumpToConsume := b.jumpToConsume, timeJumpWasPressed := b.timeJumpWasPressed) == b
  {
    var input := Sample(raw, st);
    if input.jumpDown
    then b.(frameInput := input, jumpToConsume := true, timeJumpWasPressed := b.time)
    else b.(frameInput := input)
  }

  /** Update: advance the clock by the frame's time step, then sample the input. */
  function UpdateSpec(b: Body, deltaTime: real, raw: RawInput, st: CharacterStats): (r: Body)
    ensures r.time == b.time + deltaTime
    ensures r.frameVelocity == b.frameVelocity && r.grounded == b.grounded
    ensures r.coyoteUsable == b.coyoteUsable && r.bufferedJumpUsable == b.bufferedJumpUsable
    ensures r.events == b.events && r.staminaConsumed == b.staminaConsumed
    ensures r.frameInput == Sample(raw, st)
    ensures r.frameInput.jumpDown ==> r.jumpToConsume && r.timeJumpWasPressed == r.time
    ensures !r.frameInput.jumpDown ==> r.jumpToConsume == b.jumpToConsume && r.timeJumpWasPressed == b.timeJumpWasPressed
  {
    GatherInputSpec(b.(time := b.time + deltaTime), raw, st)
  }

  // ---------------------------------------------------------------- contacts

  /** CheckCollisions, after the casts: clamp at a ceiling, then detect landing or leaving. */
  function CheckCollisionsSpec(b: Body, c: Contacts): (r: Body)
    ensures r.grounded == c.groundHit
    ensures c.ceilingHit ==> r.frameVelocity.y == Min(0.0, b.frameVelocity.y) && r.frameVelocity.y <= 0.0
    ensures !c.ceilingHit ==> r.frameVelocity == b.frameVelocity
    ensures r.frameVelocity.x == b.frameVelocity.x
    // landing
    ensures !b.grounded && c.groundHit ==>
      && r.coyoteUsable && r.bufferedJumpUsable && !r.endedJumpEarly
      && r.regenStarts == b.regenStarts + 1
      && r.events == b.events + [GroundedChanged(true, Abs(r.frameVelocity.y))]
    // leaving
    ensures b.grounded && !c.groundHit ==>
      && r.frameLeftGrounded == b.time
      && r.events == b.events + [GroundedChanged(false, 0.0)]
    // no change of contact: no event, the tokens stay
    ensures b.grounded == c.groundHit ==> r.events == b.events
    ensures !(!b.grounded && c.groundHit) ==>
      && r.coyoteUsable == b.coyoteUsable && r.bufferedJumpUsable == b.bufferedJumpUsable
      && r.endedJumpEarly == b.endedJumpEarly && r.regenStarts == b.regenStarts
    ensures r.staminaConsumed == b.staminaConsumed && r.jumpToConsume == b.jumpToConsume
  {
    var b1 :=
      if c.ceilingHit then b.(frameVelocity := b.frameVelocity.(y := Min(0.0, b.frameVelocity.y))) else b;
    if !b1.grounded && c.groundHit then
      b1.(grounded := true, coyoteUsable := true, bufferedJumpUsable := true, endedJumpEarly := false,
          regenStarts := b1.regenStarts + 1,
          events := b1.events + [GroundedChanged(true, Abs(b1.frameVelocity.y))])
    else if b1.grounded && !c.groundHit then
      b1.(grounded := false, frameLeftGrounded := b1.time,
          events := b1.events + [GroundedChanged(false, 0.0)])
    else
      b1
  }

  // ---------------------------------------------------------------- jumping

  /** A press recent enough, with the buffer token held since the last landing. */
  predicate BufferedJumpAvailable(b: Body, st: CharacterStats)
  {
    b.bufferedJumpUsable && b.time < b.timeJumpWasPressed + st.jumpBuffer
  }

  /** Airborne, within coyote time of leaving the ground, with the coyote token held. */
  predicate CoyoteAvailable(b: Body, st: CharacterStats)
  {
    b.coyoteUsable && !b.grounded && b.time < b.frameLeftGrounded + st.coyoteTime
  }

  /** ExecuteJump: spend both tokens, set the jump speed, pay the stamina, fire Jumped. */
  function ExecuteJumpSpec(b: Body, st: CharacterStats): (r: Body)
    ensures !r.coyoteUsable && !r.bufferedJumpUsable && !r.endedJumpEarly
    ensures !BufferedJumpAvailable(r, st) && !CoyoteAvailable(r, st)
    ensures r.frameVelocity == b.frameVelocity.(y := st.jumpPower)
    ensures r.staminaConsumed == b.staminaConsumed + [JumpStamina]
    ensures r.events == b.events + [Jumped]
    ensures r.grounded == b.grounded && r.jumpToConsume == b.jumpToConsume
  {
    b.(endedJumpEarly := false, timeJumpWasPressed := 0.0, bufferedJumpUsable := false, coyoteUsable := false,
       frameVelocity := b.frameVelocity.(y := st.jumpPower),
       staminaConsumed := b.staminaConsumed + [JumpStamina],
       events := b.events + [Jumped])
  }

  /** The jump condition of HandleJump: an intent or a buffered press, and ground or coyote time. */
  predicate JumpFires(b: Body, st: CharacterStats)
  {
    (b.jumpToConsume || BufferedJumpAvailable(b, st)) && (b.grounded || CoyoteAvailable(b, st))
  }

  /**
   * HandleJump: release of the button while rising ends the jump early; then
   * an intent or buffered press jumps when grounded or in coyote time, and
   * the intent is dropped either way.
   */
  function HandleJumpSpec(b: Body, rbVy: real, st: CharacterStats): (r: Body)
    ensures !r.jumpToConsume
    ensures JumpFires(b, st) ==>
      && r.events == b.events + [Jumped]
      && r.frameVelocity.y == st.jumpPower
      && !r.coyoteUsable && !r.bufferedJumpUsable && !r.endedJumpEarly
      && r.staminaConsumed == b.staminaConsumed + [JumpStamina]
    ensures !JumpFires(b, st) ==>
      && r.events == b.events && r.staminaConsumed == b.staminaConsumed
      && r.frameVelocity == b.frameVelocity
      && r.coyoteUsable == b.coyoteUsable && r.bufferedJumpUsable == b.bufferedJumpUsable
    ensures !JumpFires(b, st) ==>
      r.endedJumpEarly == (b.endedJumpEarly || (!b.grounded && !b.frameInput.jumpHeld && rbVy > 0.0))
    ensures !JumpFires(b, st) ==> r == b.(jumpToConsume := false, endedJumpEarly := r.endedJumpEarly)
    ensures JumpFires(b, st) ==> r == ExecuteJumpSpec(b, st).(jumpToConsume := false)
    ensures r.grounded == b.grounded && r.frameVelocity.x == b.frameVelocity.x
    ensures r.regenStarts == b.regenStarts && r.time == b.time
  {
    var b1 :=
      if !b.endedJumpEarly && !b.grounded && !b.frameInput.jumpHeld && rbVy > 0.0
      then b.(endedJumpEarly := true) else b;
    if !b1.jumpToConsume && !BufferedJumpAvailable(b1, st) then b1
    else
      var b2 := if b1.grounded || CoyoteAvailable(b1, st) then ExecuteJumpSpec(b1, st) else b1;
      b2.(jumpToConsume := false)
  }

  // ---------------------------------------------------------------- horizontal

  /** The speed HandleDirection steers towards: the input times the top speed, or rest when there is no input. */
  function TargetSpeed(input: FrameInput, st: CharacterStats): real
  {
    if input.move.x == 0.0 then 0.0 else input.move.x * st.maxSpeed
  }

  /** How fast HandleDirection may change the horizontal speed: acceleration with input, otherwise ground or air deceleration. */
  function SteeringRate(input: FrameInput, grounded: bool, st: CharacterStats): real
  {
    if input.move.x == 0.0
    then (if grounded then st.groundDeceleration else st.airDeceleration)
    else st.acceleration
  }

  /**
   * The horizontal speed after one HandleDirection step: with no input it
   * decelerates towards rest, otherwise it accelerates towards the input
   * times the top speed.
   */
  function SteeredSpeed(vx: real, input: FrameInput, grounded: bool, st: CharacterStats, dt: real): real
  {
    MoveTowards(vx, TargetSpeed(input, st), SteeringRate(input, grounded, st) * dt)
  }

  /** HandleDirection moves the horizontal speed towards the target speed, by at most rate times the step. */
  lemma SteeringApproachesTarget(vx: real, input: FrameInput, grounded: bool, st: CharacterStats, dt: real)
    requires NonNegativeRates(st) && dt >= 0.0
    ensures var r := SteeredSpeed(vx, input, grounded, st, dt);
      && Between(vx, r, TargetSpeed(input, st))
      && Abs(r - vx) <= SteeringRate(input, grounded, st) * dt
  {
    var rate := SteeringRate(input, grounded, st);
    ProductNonNegative(rate, dt);
    var step := rate * dt;
    assert SteeredSpeed(vx, input, grounded, st, dt) == MoveTowards(vx, TargetSpeed(input, st), step);
  }

  /** HandleDirection on the whole body: only the horizontal speed changes. */
  function HandleDirectionSpec(b: Body, st: CharacterStats, dt: real): Body
  {
    b.(frameVelocity := b.frameVelocity.(x := SteeredSpeed(b.frameVelocity.x, b.frameInput, b.grounded, st, dt)))
  }

  // ---------------------------------------------------------------- gravity

  /** The in-air gravity: the fall acceleration, scaled while rising after an early release. */
  function AirGravity(vy: real, endedJumpEarly: bool, st: CharacterStats): real
  {
    if endedJumpEarly && vy > 0.0
    then st.fallAcceleration * st.jumpEndEarlyGravityModifier
    else st.fallAcceleration
  }

  /** The vertical speed after one HandleGravity step. */
  function FallSpeed(vy: real, grounded: bool, endedJumpEarly: bool, st: CharacterStats, dt: real): real
  {
    if grounded && vy <= 0.0 then st.groundingForce
    else MoveTowards(vy, -st.maxFallSpeed, AirGravity(vy, endedJumpEarly, st) * dt)
  }

  /**
   * Grounded and not rising, HandleGravity pins the vertical speed to the
   * grounding force; otherwise it moves it towards the terminal fall speed by
   * at most the gravity times the step, never past it.
   */
  lemma GravityNeverPassesTerminalSpeed(vy: real, grounded: bool, endedJumpEarly: bool, st: CharacterStats, dt: real)
    requires NonNegativeRates(st) && dt >= 0.0
    ensures var r := FallSpeed(vy, grounded, endedJumpEarly, st, dt);
      && (grounded && vy <= 0.0 ==> r == st.groundingForce)
      && (!(grounded && vy <= 0.0) ==>
            && Between(vy, r, -st.maxFallSpeed)
            && Abs(r - vy) <= AirGravity(vy, endedJumpEarly, st) * dt
            && r >= Min(vy, -st.maxFallSpeed))
  {
    var g := AirGravity(vy, endedJumpEarly, st);
    assert g >= 0.0 by {
      if endedJumpEarly && vy > 0.0 {
        ProductNonNegative(st.fallAcceleration, st.jumpEndEarlyGravityModifier);
      }
    }
    ProductNonNegative(g, dt);
  }

  lemma ProductNonNegative(a: real, c: real)
    requires a >= 0.0 && c >= 0.0
    ensures a * c >= 0.0
  {
  }

  /** HandleGravity on the whole body: only the vertical speed changes. */
  function HandleGravitySpec(b: Body, st: CharacterStats, dt: real): Body
  {
    b.(frameVelocity := b.frameVelocity.(y := FallSpeed(b.frameVelocity.y, b.grounded, b.endedJumpEarly, st, dt)))
  }

  // ---------------------------------------------------------------- the step

  /** ApplyMovement: hand the frame velocity to the rigidbody. */
  function ApplyMovementSpec(b: Body): (r: Body)
    ensures r.rbVelocity == b.frameVelocity && r == b.(rbVelocity := r.rbVelocity)
  {
    b.(rbVelocity := b.frameVelocity)
  }

  /** FixedUpdate: with control disabled only apply; otherwise contacts, jump, direction, gravity, apply. */
  function FixedUpdateSpec(b: Body, c: Contacts, rbVy: real, st: CharacterStats, dt: real): (r: Body)
    ensures r.rbVelocity == r.frameVelocity
    ensures b.controlDisabled ==> r == b.(rbVelocity := b.frameVelocity)
    ensures !b.controlDisabled ==> r.grounded == c.groundHit && !r.jumpToConsume
    ensures r.controlDisabled == b.controlDisabled && r.time == b.time
  {
    if b.controlDisabled then ApplyMovementSpec(b)
    else
      var b1 := CheckCollisionsSpec(b, c);
      var b2 := HandleJumpSpec(b1, rbVy, st);
      var b3 := HandleDirectionSpec(b2, st, dt);
      var b4 := HandleGravitySpec(b3, st, dt);
      ApplyMovementSpec(b4)
  }

  /** SetControl: disabling stops the body at once; enabling only lifts the flag. */
  function SetControlSpec(b: Body, state: bool): (r: Body)
    ensures r.controlDisabled == !state
    ensures !state ==> r.frameVelocity == Zero && r.rbVelocity == Zero
    ensures state ==> r == b.(controlDisabled := false)
  {
    if !state then b.(controlDisabled := true, frameVelocity := Zero, rbVelocity := Zero)
    else b.(controlDisabled := false)
  }

  // ---------------------------------------------------------------- runs of steps

  /** What the engine does next: a rendered frame (Update) or a physics step (FixedUpdate). */
  datatype Step =
    | Frame(deltaTime: real, raw: RawInput)
    | Physics(contacts: Contacts, rbVy: real, dt: real)

  function StepSpec(b: Body, s: Step, st: CharacterStats): Body
  {
    match s
    case Frame(deltaTime, raw) => UpdateSpec(b, deltaTime, raw, st)
    case Physics(c, rbVy, dt) => FixedUpdateSpec(b, c, rbVy, st, dt)
  }

  /** The body after the engine drives it through `steps`, in order. */
  function Run(b: Body, steps: seq<Step>, st: CharacterStats): Body
    decreases |steps|
  {
    if steps == [] then b else Run(StepSpec(b, steps[0], st), steps[1..], st)
  }

  /** The number of Jumped events in a log. */
  function Jumps(events: seq<Event>): nat
  {
    if events == [] then 0
    else Jumps(events[..|events| - 1]) + (if events[|events| - 1] == Jumped then 1 else 0)
  }

  /** No physics step of `steps` finds ground below. */
  predicate NeverGrounds(steps: seq<Step>)
  {
    forall i :: 0 <= i < |steps| && steps[i].Physics? ==> !steps[i].contacts.groundHit
  }

  /**
   * Without the coyote and buffer tokens, and with no ground found, no step
   * jumps: the event log only gains ground-leaving events and no stamina is
   * spent.
   */
  lemma {:induction false} NoTokensNoJump(b: Body, steps: seq<Step>, st: CharacterStats)
    requires !b.coyoteUsable && !b.bufferedJumpUsable
    requires NeverGrounds(steps)
    ensures Jumps(Run(b, steps, st).events) == Jumps(b.events)
    ensures Run(b, steps, st).staminaConsumed == b.staminaConsumed
    ensures !Run(b, steps, st).coyoteUsable && !Run(b, steps, st).bufferedJumpUsable
    decreases |steps|
  {
    if steps != [] {
      var b1 := StepSpec(b, steps[0], st);
      match steps[0] {
      case Frame(_, _) =>
      case Physics(c, rbVy, dt) =>
        assert !c.groundHit by { assert steps[0].Physics?; }
        if !b.controlDisabled {
          var k := CheckCollisionsSpec(b, c);
          assert !k.grounded && !k.coyoteUsable && !k.bufferedJumpUsable;
          assert !JumpFires(k, st);
          var h := HandleJumpSpec(k, rbVy, st);
          assert h.events == k.events;
          var d := HandleDirectionSpec(h, st, dt);
          var g := HandleGravitySpec(d, st, dt);
          assert b1 == ApplyMovementSpec(g);
          if b.grounded {
            assert b1.events == b.events + [GroundedChanged(false, 0.0)];
            assert (b.events + [GroundedChanged(false, 0.0)])[..|b.events|] == b.events;
          } else {
            assert b1.events == b.events;
          }
        }
      }
      assert NeverGrounds(steps[1..]) by {
        forall i | 0 <= i < |steps[1..]| && steps[1..][i].Physics?
          ensures !steps[1..][i].contacts.groundHit
        {
          assert steps[1..][i] == steps[i + 1];
        }
      }
      NoTokensNoJump(b1, steps[1..], st);
    }
  }

  /**
   * A jump spends both tokens, so until a physics step finds ground again no
   * second jump happens, however the button is pressed and whatever coyote
   * time is left.
   */
  lemma NoSecondJumpBeforeLanding(b: Body, c: Contacts, rbVy: real, dt: real, steps: seq<Step>, st: CharacterStats)
    requires !b.controlDisabled
    requires JumpFires(CheckCollisionsSpec(b, c), st)
    requires NeverGrounds(steps)
    ensures Jumps(FixedUpdateSpec(b, c, rbVy, st, dt).events) == Jumps(b.events) + 1
    ensures Jumps(Run(FixedUpdateSpec(b, c, rbVy, st, dt), steps, st).events) == Jumps(b.events) + 1
  {
    var k := CheckCollisionsSpec(b, c);
    var h := HandleJumpSpec(k, rbVy, st);
    var b1 := FixedUpdateSpec(b, c, rbVy, st, dt);
    assert b1.events == h.events && b1.coyoteUsable == h.coyoteUsable
      && b1.bufferedJumpUsable == h.bufferedJumpUsable;
    assert Jumps(k.events) == Jumps(b.events) by {
      if k.events != b.events {
        assert (b.events + [k.events[|k.events| - 1]])[..|b.events|] == b.events;
      }
    }
    assert h.events[..|h.events| - 1] == k.events;
    NoTokensNoJump(b1, steps, st);
  }

  /**
   * The body never falls faster than the terminal speed: if it starts within
   * it, every step keeps it there, provided the jump and grounding speeds are
   * within it too and time steps are non-negative.
   */
  lemma {:induction false} FallSpeedStaysBounded(b: Body, steps: seq<Step>, st: CharacterStats)
    requires NonNegativeRates(st)
    requires st.jumpPower >= -st.maxFallSpeed && st.groundingForce >= -st.maxFallSpeed
    requires forall i :: 0 <= i < |steps| && steps[i].Physics? ==> steps[i].dt >= 0.0
    requires b.frameVelocity.y >= -st.maxFallSpeed
    ensures Run(b, steps, st).frameVelocity.y >= -st.maxFallSpeed
    decreases |steps|
  {
    if steps != [] {
      var b1 := StepSpec(b, steps[0], st);
      match steps[0] {
      case Frame(_, _) =>
      case Physics(c, rbVy, dt) =>
        assert dt >= 0.0 by { assert steps[0].Physics?; }
        if !b.controlDisabled {
          var k := CheckCollisionsSpec(b, c);
          var h := HandleJumpSpec(k, rbVy, st);
          var d := HandleDirectionSpec(h, st, dt);
          var g := HandleGravitySpec(d, st, dt);
          assert b1 == ApplyMovementSpec(g);
          assert d.frameVelocity.y >= -st.maxFallSpeed;
          GravityNeverPassesTerminalSpeed(d.frameVelocity.y, d.grounded, d.endedJumpEarly, st, dt);
        }
      }
      forall i | 0 <= i < |steps[1..]| && steps[1..][i].Physics?
        ensures steps[1..][i].dt >= 0.0
      {
        assert steps[1..][i] == steps[i + 1];
      }
      FallSpeedStaysBounded(b1, steps[1..], st);
    }
  }

  /** The default asset satisfies the conditions of the fall-speed bound. */
  lemma DefaultsBoundFallSpeed()
    ensures NonNegativeRates(Defaults)
    ensures Defaults.jumpPower >= -Defaults.maxFallSpeed && Defaults.groundingForce >= -Defaults.maxFallSpeed
  {
  }

  /**
   * While control is disabled, physics steps change nothing but the
   * rigidbody's velocity, which is the (zeroed) frame velocity.
   */
  lemma {:induction false} DisabledBodyStaysPut(b: Body, steps: seq<Step>, st: CharacterStats)
    requires b.controlDisabled && b.frameVelocity == Zero
    requires forall i :: 0 <= i < |steps| ==> steps[i].Physics?
    ensures Run(b, steps, st) == b.(rbVelocity := if steps == [] then b.rbVelocity else Zero)
    decreases |steps|
  {
    if steps != [] {
      var b1 := StepSpec(b, steps[0], st);
      assert b1 == b.(rbVelocity := Zero);
      forall i | 0 <= i < |steps[1..]| ensures steps[1..][i].Physics? {
        assert steps[1..][i] == steps[i + 1];
      }
      DisabledBodyStaysPut(b1, steps[1..], st);
    }
  }

  // ---------------------------------------------------------------- the component

  class PlayerController {
    const stats: CharacterStats
    var frameInput: FrameInput
    var frameVelocity: Vec2
    var rbVelocity: Vec2
    var time: real
    var isControlDisabled: bool
    var frameLeftGrounded: real
    var grounded: bool
    var jumpToConsume: bool
    var bufferedJumpUsable: bool
    var endedJumpEarly: bool
    var coyoteUsable: bool
    var timeJumpWasPressed: real
    ghost var events: seq<Event>
    ghost var regenStarts: nat
    ghost var staminaConsumed: seq<real>

    ghost function Snapshot(): Body
      reads this
    {
      Body(frameInput, frameVelocity, rbVelocity, time, isControlDisabled, frameLeftGrounded, grounded,
           jumpToConsume, bufferedJumpUsable, endedJumpEarly, coyoteUsable, timeJumpWasPressed,
           events, regenStarts, staminaConsumed)
    }

    constructor(stats: CharacterStats)
      ensures this.stats == stats && Snapshot() == Initial
    {
      this.stats := stats;
      frameInput := NoInput;
      frameVelocity := Zero;
      rbVelocity := Zero;
      time := 0.0;
      isControlDisabled := false;
      frameLeftGrounded := FloatMinValue;
      grounded := false;
      jumpToConsume := false;
      bufferedJumpUsable := false;
      endedJumpEarly := false;
      coyoteUsable := false;
      timeJumpWasPressed := 0.0;
      events := [];
      regenStarts := 0;
      staminaConsumed := [];
    }

    method Update(deltaTime: real, raw: RawInput)
      modifies this
      ensures Snapshot() == UpdateSpec(old(Snapshot()), deltaTime, raw, stats)
    {
      time := time + deltaTime;
      GatherInput(raw);
    }

    method GatherInput(raw: RawInput)
      modifies this
      ensures Snapshot() == GatherInputSpec(old(Snapshot()), raw, stats)
    {
      var input := FrameInput(raw.jumpButtonDown || raw.managerJump, raw.jumpButtonHeld || raw.managerJump, raw.axes);
      if stats.snapInput {
        input := input.(move := Vec2(SnapAxis(input.move.x, stats.horizontalDeadZoneThreshold),
                                     SnapAxis(input.move.y, stats.verticalDeadZoneThreshold)));
      }
      frameInput := input;
      if frameInput.jumpDown {
        jumpToConsume := true;
        timeJumpWasPressed := time;
      }
    }

    method FixedUpdate(contacts: Contacts, rbVy: real, dt: real)
      modifies this
      ensures Snapshot() == FixedUpdateSpec(old(Snapshot()), contacts, rbVy, stats, dt)
    {
      if isControlDisabled {
        ApplyMovement();
        return;
      }
      CheckCollisions(contacts);
      HandleJump(rbVy);
      HandleDirection(dt);
      HandleGravity(dt);
      ApplyMovement();
    }

    method CheckCollisions(contacts: Contacts)
      modifies this
      ensures Snapshot() == CheckCollisionsSpec(old(Snapshot()), contacts)
    {
      if contacts.ceilingHit {
        frameVelocity := frameVelocity.(y := Min(0.0, frameVelocity.y));
      }
      if !grounded && contacts.groundHit {
        grounded := true;
        coyoteUsable := true;
        bufferedJumpUsable := true;
        endedJumpEarly := false;
        regenStarts := regenStarts + 1;
        events := events + [GroundedChanged(true, Abs(frameVelocity.y))];
      } else if grounded && !contacts.groundHit {
        grounded := false;
        frameLeftGrounded := time;
        events := events + [GroundedChanged(false, 0.0)];
      }
    }

    predicate HasBufferedJump()
      reads this
      ensures HasBufferedJump() == BufferedJumpAvailable(Snapshot(), stats)
    {
      bufferedJumpUsable && time < timeJumpWasPressed + stats.jumpBuffer
    }

    predicate CanUseCoyote()
      reads this
      ensures CanUseCoyote() == CoyoteAvailable(Snapshot(), stats)
    {
      coyoteUsable && !grounded && time < frameLeftGrounded + stats.coyoteTime
    }

    method HandleJump(rbVy: real)
      modifies this
      ensures Snapshot() == HandleJumpSpec(old(Snapshot()), rbVy, stats)
    {
      if !endedJumpEarly && !grounded && !frameInput.jumpHeld && rbVy > 0.0 {
        endedJumpEarly := true;
      }
      if !jumpToConsume && !HasBufferedJump() {
        return;
      }
      if grounded || CanUseCoyote() {
        ExecuteJump();
      }
      jumpToConsume := false;
    }

    method ExecuteJump()
      modifies this
      ensures Snapshot() == ExecuteJumpSpec(old(Snapshot()), stats)
    {
      endedJumpEarly := false;
      timeJumpWasPressed := 0.0;
      bufferedJumpUsable := false;
      coyoteUsable := false;
      frameVelocity := frameVelocity.(y := stats.jumpPower);
      staminaConsumed := staminaConsumed + [JumpStamina];
      events := events + [Jumped];
    }

    method HandleDirection(dt: real)
      modifies this
      ensures Snapshot() == HandleDirectionSpec(old(Snapshot()), stats, dt)
    {
      frameVelocity := Vec2(SteeredSpeed(frameVelocity.x, frameInput, grounded, stats, dt), frameVelocity.y);
    }

    method HandleGravity(dt: real)
      modifies this
      ensures Snapshot() == HandleGravitySpec(old(Snapshot()), stats, dt)
    {
      frameVelocity := Vec2(frameVelocity.x, FallSpeed(frameVelocity.y, grounded, endedJumpEarly, stats, dt));
    }

    method ApplyMovement()
      modifies this
      ensures Snapshot() == ApplyMovementSpec(old(Snapshot()))
    {
      rbVelocity := frameVelocity;
    }

    method SetControl(state: bool)
      modifies this
      ensures Snapshot() == SetControlSpec(old(Snapshot()), state)
    {
      isControlDisabled := !state;
      if isControlDisabled {
        frameVelocity := Zero;
        rbVelocity := Zero;
      }
    }
  }
}
