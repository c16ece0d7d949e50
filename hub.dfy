/** The per-tick input sample the player code reads. */
module PlayerInput {
  import opened UnityMath

  /** FrameInput: jump pressed this frame, jump held, and the two move axes. */
  datatype FrameInput = FrameInput(jumpDown: bool, jumpHeld: bool, move: Vec2)

  const NoInput: FrameInput := FrameInput(false, false, Zero)
}

/**
 * The state-machine hub's data: the kinds of state, and every field of the
 * context that the six states read or write.
 *
 * The state files come from two revisions of the game. Jump, Fall and Dash
 * use the 2D context (frame velocity, consumable jump and dash intents,
 * dash availability, coyote query, stats, stamina); Grounded, Run and Idle
 * use the older 3D context (pressed flags, character-controller contact,
 * movement vectors, speed). The hub holds the union of both.
 */
module Hub {
  import opened Wrappers
  import opened UnityMath
  import opened PlayerInput

  /** The six kinds of state, in the order the source's enum lists them. */
  datatype PlayerStates = Idle | Run | Grounded | Jump | Dash | Fall

  /** The four kinds whose constructors set the root flag. */
  predicate IsRootKind(k: PlayerStates)
  {
    k != Idle && k != Run
  }

  /** The roots whose InitializeSubState installs a leaf (Dash's does nothing). */
  predicate HasSubStates(k: PlayerStates)
  {
    k == Grounded || k == Jump || k == Fall
  }

  /** The older context's speed constants. */
  const WalkSpeed: real := 4.0
  const RunSpeed: real := 8.0

  /** The older context's initial gravity. */
  const DefaultGravity: real := -9.8

  /**
   * Calls into collaborators whose bodies are not part of the model, counted
   * per collaborator: the jump-buffer and coyote tokens, the jump and dash
   * events, the dash cooldown and the stamina regeneration, plus the list of
   * stamina amounts handed to the stats controller. The order between calls
   * of different collaborators is not kept.
   */
  datatype Calls = Calls(
    jumpBufferUses: nat,
    coyoteUses: nat,
    jumpEvents: nat,
    dashEvents: nat,
    cooldownStarts: nat,
    regenStarts: nat,
    staminaConsumed: seq<real>)

  const NoCalls: Calls := Calls(0, 0, 0, 0, 0, 0, [])

  /** The hub's fields as one value. */
  datatype HubData = HubData(
    // the 2D revision
    frameVelocity: Vec2,
    grounded: bool,
    jumpToConsume: bool,
    dashToConsume: bool,
    canDash: bool,
    isDashing: bool,
    canUseCoyote: bool,
    input: FrameInput,
    localScaleX: real,
    stamina: real,
    // the 3D revision
    isJumpPressed: bool,
    isMovementPressed: bool,
    isRunPressed: bool,
    controllerGrounded: bool,
    currentMovementY: real,
    gravity: real,
    appliedMovementX: real,
    appliedMovementY: real,
    appliedMovementZ: real,
    currentSpeed: real,
    // collaborators
    calls: Calls)

  /** The stats controller's gate: at least `cost` stamina left. */
  predicate HasEnoughStamina(d: HubData, cost: real)
  {
    d.stamina >= cost
  }

  /** What a CheckSwitchStates decides: the state to switch to, if any, and the hub after its own writes. */
  datatype Decision = Decision(target: Option<PlayerStates>, data: HubData)
}
