/** The Run leaf (3D revision): sets the running speed, falls back to Idle without movement. */
module RunState {
  import opened Wrappers
  import opened Hub
  import IdleState

  /** EnterState: the current speed becomes the run speed (the animator flags are not modelled). */
  function Enter(d: HubData): HubData
  {
    d.(currentSpeed := RunSpeed)
  }

  /** CheckSwitchStates: to Idle as soon as movement is released. */
  function Check(d: HubData): Decision
  {
    if !d.isMovementPressed then Decision(Some(Idle), d) else Decision(None, d)
  }

  /** Entering Run sets the speed to the constant 8 and nothing else. */
  lemma EnterSetsRunSpeed(d: HubData)
    ensures Enter(d).currentSpeed == 8.0
    ensures Enter(d).(currentSpeed := d.currentSpeed) == d
  {
  }

  /** Run leaves only for Idle, exactly when movement is not pressed, and writes nothing itself. */
  lemma SwitchesToIdleWithoutMovement(d: HubData)
    ensures Check(d).target.Some? <==> !d.isMovementPressed
    ensures Check(d).target.Some? ==> Check(d).target.value == Idle
    ensures Check(d).data == d
  {
  }

  /**
   * The two leaves never both want to switch on the same hub: Idle needs
   * movement pressed, Run needs it released, so no tick flips Idle to Run
   * and back.
   */
  lemma NoFlicker(d: HubData)
    ensures !(IdleState.Check(d).target.Some? && Check(d).target.Some?)
  {
  }
}
