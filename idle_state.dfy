/** The Idle leaf (3D revision): no movement, waits for movement and run together. */
module IdleState {
  import opened Wrappers
  import opened Hub

  /** EnterState: the applied X and Z movement become zero (the animator flags are not modelled). */
  function Enter(d: HubData): HubData
  {
    d.(appliedMovementX := 0.0, appliedMovementZ := 0.0)
  }

  /** CheckSwitchStates: to Run when movement and run are both pressed. */
  function Check(d: HubData): Decision
  {
    if d.isMovementPressed && d.isRunPressed then Decision(Some(Run), d) else Decision(None, d)
  }

  /** Entering Idle stops horizontal applied movement and touches nothing else, applied Y included. */
  lemma EnterStopsHorizontalMovement(d: HubData)
    ensures Enter(d).appliedMovementX == 0.0 && Enter(d).appliedMovementZ == 0.0
    ensures Enter(d).appliedMovementY == d.appliedMovementY
    ensures Enter(d).(appliedMovementX := d.appliedMovementX, appliedMovementZ := d.appliedMovementZ) == d
  {
  }

  /** Idle leaves only for Run, exactly when both movement and run are pressed, and writes nothing itself. */
  lemma SwitchesToRunOnlyWhenRunning(d: HubData)
    ensures Check(d).target.Some? <==> d.isMovementPressed && d.isRunPressed
    ensures Check(d).target.Some? ==> Check(d).target.value == Run
    ensures Check(d).data == d
  {
  }
}
