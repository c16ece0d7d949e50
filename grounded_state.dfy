/** The Grounded root (3D revision): jump has priority over losing ground contact. */
module GroundedState {
  import opened Wrappers
  import opened Hub

  /** EnterState's HandleGravity: the current vertical movement becomes the context's gravity. */
  function Enter(d: HubData): HubData
  {
    d.(currentMovementY := d.gravity)
  }

  /** InitializeSubState: Idle when neither movement nor run is pressed, Run otherwise. */
  function InitialSub(d: HubData): PlayerStates
  {
    if !d.isMovementPressed && !d.isRunPressed then Idle else Run
  }

  /** CheckSwitchStates: jump pressed to Jump, otherwise lost contact to Fall. */
  function Check(d: HubData): Decision
  {
    if d.isJumpPressed then Decision(Some(Jump), d)
    else if !d.controllerGrounded then Decision(Some(Fall), d)
    else Decision(None, d)
  }

  lemma EnterAppliesGravity(d: HubData)
    ensures Enter(d).currentMovementY == d.gravity
    ensures Enter(d).(currentMovementY := d.currentMovementY) == d
  {
  }

  /** The leaf installed on entry is Idle exactly when neither movement nor run is pressed. */
  lemma InitialSubIsIdleIffStill(d: HubData)
    ensures InitialSub(d) == Idle <==> !d.isMovementPressed && !d.isRunPressed
    ensures InitialSub(d) == Idle || InitialSub(d) == Run
  {
  }

  /**
   * A pressed jump wins over losing contact; Fall is chosen only without a
   * jump and without contact; otherwise Grounded stays. The check writes nothing.
   */
  lemma JumpHasPriority(d: HubData)
    ensures d.isJumpPressed ==> Check(d).target == Some(Jump)
    ensures Check(d).target == Some(Fall) <==> !d.isJumpPressed && !d.controllerGrounded
    ensures Check(d).target == None <==> !d.isJumpPressed && d.controllerGrounded
    ensures Check(d).data == d
  {
  }
}
