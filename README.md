# Simple 2D Platformer core, in Dafny

This project models the gameplay core of a small Unity 2D platformer:

- the **player controller**: input sampling, ground and ceiling contact, the buffered jump and the coyote jump, horizontal steering, gravity, and disabling control during cinematics;
- the **hierarchical player state machine**: six flyweight states (Idle, Run, Grounded, Jump, Dash, Fall), held by a factory. Each state has a sub-state link and a super-state link. Every switch exits the old state, enters the new one and rewires the links;
- the **character stats model**: health and stamina clamped to [0, max]. A change is stored and reported to observers only when it exceeds an epsilon;
- the **generic object pool**: a FIFO queue of inactive clones that is preloaded, rented from the front and returned at the back. It skips destroyed instances;
- the **cinematic trigger zone**: a layer-mask test, and a one-time-only mode that fires at most once and then deactivates the zone.

## Modelling choices

- Floats are modelled as `real`. The engine's `Mathf.MoveTowards`, `Mathf.Sign`, `Mathf.Min` and `Math.Clamp` are written out in `UnityMath`, with their own contracts.
- Every class whose fields the game mutates is a Dafny `class` with the same fields: `PlayerController`, `PlayerState`, `CharacterStatsModel`, `ObjectPool` and `CinematicTrigger`.
- The methods of `PlayerController`, `PlayerState`, `CharacterStatsModel` and `CinematicTrigger` are proved to change the object exactly as a pure function of the old state says. The properties are then lemmas about those functions.
  - For the controller this function works on `Controller.Body`.
  - For the state machine it works on `MachineSpec.Machine`. That value holds the hub, the current state, all twelve links, Dash's two private fields, and a log of the lifecycle hooks called.
  - For the stats model it works on `StatsModel.Stats`.
  - For the trigger it works on `Trigger.Zone`.
- The methods of `ObjectPool` state their new state directly, as relations with the old one: the queue's contents, the instances' flags and the counters. `Pool.FirstLive` names the position `Rent` stops at.
- Calls into collaborators whose code is not part of the model are counted per collaborator. The relative order between calls to different collaborators is not kept. The calls are:
  - the stats controller's `ConsumeStamina` and `RegenStamina`;
  - the jump buffer and coyote tokens, and the jump and dash events;
  - the dash cooldown;
  - the `OnReturn` callback and the `OnZoneEntered` event.
- The six state files come from two revisions of the game.
  - Grounded, Run and Idle read the older 3D context: pressed flags, character-controller contact, movement vectors and speed.
  - Jump, Fall and Dash read the 2D context: frame velocity, consumable intents and stamina.
  - The hub `Hub.HubData` holds the union of both field sets.
- Physics casts, the rigidbody's vertical velocity, `Time.time` and `Time.fixedDeltaTime` are parameters: `Contacts`, `rbVy`, `now` and `dt`.
- Raw input polls are a parameter too (`RawInput`).
- A destroyed Unity object compares equal to `null`. The pool therefore models each `!= null` test on a queued instance as a liveness test.

## Model

| member | source | states |
|---|---|---|
| UnityMath.MoveTowards | Assets/Scripts/Player/PlayerController.cs:167 | a non-negative step moves at most maxDelta towards the target, never past it, and lands on the target when it is within reach |
| UnityMath.MoveTowardsIsSignedStep | Assets/Scripts/Player/PlayerController.cs:189 | when the target is out of reach, the step equals the engine's `current + Sign(target - current) * maxDelta` |
| UnityMath.Clamp | Assets/Scripts/Systems/Stats/CharacterStatsModel.cs:66 | the result lies in [lo, hi]; it is the value when the value is inside the range, and the nearer bound otherwise |
| StatsModel.Percentage | Assets/Scripts/Systems/Stats/CharacterStatsModel.cs:45 | the payload of an in-range value is in [0, 1], and a full value with a maximum of at least 0.0001 reports exactly 1 |
| StatsModel.SettersAreIndependent | Assets/Scripts/Systems/Stats/CharacterStatsModel.cs:64-86 | SetHealth never touches stamina or its notifications, SetStamina never touches health, and neither changes a maximum |
| StatsModel.SetterNotifiesOnlyOnChange | Assets/Scripts/Systems/Stats/CharacterStatsModel.cs:64-86 | a setter stores the clamped value and notifies once with its percentage exactly when the change exceeds 0.001; otherwise nothing changes |
| StatsModel.ApplyKeepsRange | Assets/Scripts/Systems/Stats/CharacterStatsModel.cs:64-95 | every public mutator keeps health and stamina in [0, max], and every payload sent in [0, 1] |
| StatsModel.ApplyAllKeepsRange | Assets/Scripts/Systems/Stats/CharacterStatsModel.cs:64-95 | any sequence of mutators keeps both values in range and the maxima fixed |
| StatsModel.CreateInRange | Assets/Scripts/Systems/Stats/CharacterStatsModel.cs:33-41 | whatever the initial values, the constructor leaves both values in range |
| StatsModel.EnoughStaminaConsumesExactly | Assets/Scripts/Systems/Stats/CharacterStatsModel.cs:92 | when HasEnoughStamina holds for a non-negative cost, consuming it lowers stamina by exactly the cost; a cost within the epsilon changes nothing |
| StatsModel.OverkillClampsToZero | Assets/Scripts/Systems/Stats/CharacterStatsModel.cs:89 | 150 damage on 100 of 100 health leaves 0 health; the log holds 1 from the constructor's SetHealth call, which no observer receives, then 0 |
| StatsModel.CharacterStatsModel.constructor | Assets/Scripts/Systems/Stats/CharacterStatsModel.cs:33-41 | both values start at 0 and go through their setters; the result is in range |
| StatsModel.CharacterStatsModel.GetHealthPercentage | Assets/Scripts/Systems/Stats/CharacterStatsModel.cs:45 | health over max(maxHealth, 0.0001), which lies in [0, 1] while the model is in range |
| StatsModel.CharacterStatsModel.GetStaminaPercentage | Assets/Scripts/Systems/Stats/CharacterStatsModel.cs:48 | stamina over max(maxStamina, 0.0001), which lies in [0, 1] while the model is in range |
| StatsModel.CharacterStatsModel.IsStaminaFull | Assets/Scripts/Systems/Stats/CharacterStatsModel.cs:51 | while the model is in range, stamina is full exactly when it equals the maximum |
| StatsModel.CharacterStatsModel.HasEnoughStamina | Assets/Scripts/Systems/Stats/CharacterStatsModel.cs:57 | true exactly when the cost does not exceed the stamina |
| StatsModel.CharacterStatsModel.SetHealth | Assets/Scripts/Systems/Stats/CharacterStatsModel.cs:64-73 | the object changes as SetHealthOn says, and stays in range |
| StatsModel.CharacterStatsModel.SetStamina | Assets/Scripts/Systems/Stats/CharacterStatsModel.cs:78-86 | the object changes as SetStaminaOn says, and stays in range |
| StatsModel.CharacterStatsModel.TakeDamage | Assets/Scripts/Systems/Stats/CharacterStatsModel.cs:89 | SetHealth with health minus the amount; stays in range |
| StatsModel.CharacterStatsModel.ConsumeStamina | Assets/Scripts/Systems/Stats/CharacterStatsModel.cs:92 | SetStamina with stamina minus the amount; stays in range |
| StatsModel.CharacterStatsModel.AddStamina | Assets/Scripts/Systems/Stats/CharacterStatsModel.cs:95 | SetStamina with stamina plus the amount; stays in range |
| Controller.SnapAxis | Assets/Scripts/Player/PlayerController.cs:56-57 | a snapped axis is 0, 1 or -1; it is 0 exactly inside the dead zone, and otherwise has the sign of the raw value |
| Controller.Sample | Assets/Scripts/Player/PlayerController.cs:47-58 | jump-down is the button press or the manager's jump, and jump-held is the button held or the manager's jump; with snapping each axis is its SnapAxis (0 inside its dead zone, else the raw value's sign), so in {-1, 0, 1}; without it the raw axes pass through |
| Controller.GatherInputSpec | Assets/Scripts/Player/PlayerController.cs:45-65 | a jump press arms the jump intent and stamps the current time; otherwise only the frame input changes |
| Controller.UpdateSpec | Assets/Scripts/Player/PlayerController.cs:39-43 | the clock advances by the frame time; the frame input is the sampled input, and a jump press arms the jump intent and stamps the new time (otherwise intent and press time are kept); velocity, contact, tokens, events and stamina stay as they were |
| Controller.CheckCollisionsSpec | Assets/Scripts/Player/PlayerController.cs:90-120 | grounded follows the ground cast; a ceiling hit clamps upward speed to 0; landing restores both tokens, clears the early end, starts regeneration and reports the impact speed; leaving stamps the time and reports (false, 0); no contact change means no event and untouched tokens |
| Controller.ExecuteJumpSpec | Assets/Scripts/Player/PlayerController.cs:147-156 | a jump spends both tokens, so neither the buffer nor coyote time is available after it; it sets vertical speed to the jump power, consumes 10 stamina and raises Jumped |
| Controller.HandleJumpSpec | Assets/Scripts/Player/PlayerController.cs:136-145 | the intent is always consumed; when (intent or buffered jump) and (grounded or coyote) the result is exactly ExecuteJumpSpec with the intent dropped; otherwise only the intent and the early-end flag change, and the flag becomes set exactly when it was set or the button is released while rising in the air |
| Controller.SteeringApproachesTarget | Assets/Scripts/Player/PlayerController.cs:162-173 | horizontal speed moves towards the input's target speed (zero without input) by at most the acceleration or deceleration times the time step, and never overshoots |
| Controller.GravityNeverPassesTerminalSpeed | Assets/Scripts/Player/PlayerController.cs:179-191 | grounded and not rising gives the grounding force; otherwise vertical speed moves towards minus the maximum fall speed by at most the (early-end scaled) gravity times the time step, and never falls below it |
| Controller.ApplyMovementSpec | Assets/Scripts/Player/PlayerController.cs:195 | the rigidbody velocity becomes the frame velocity, and nothing else changes |
| Controller.FixedUpdateSpec | Assets/Scripts/Player/PlayerController.cs:67-83 | the rigidbody always ends with the frame velocity; with control disabled nothing else changes; otherwise contact follows the ground cast and the jump intent is consumed |
| Controller.SetControlSpec | Assets/Scripts/Player/PlayerController.cs:204-213 | disabling control zeroes both velocities; enabling it changes only the flag |
| Controller.NoTokensNoJump | Assets/Scripts/Player/PlayerController.cs:133-145 | without either token, no run of frames and physics steps that never touches ground produces a jump or spends stamina, and the tokens stay spent |
| Controller.NoSecondJumpBeforeLanding | Assets/Scripts/Player/PlayerController.cs:67-156 | a physics step that jumps raises exactly one Jumped event, and no later steps raise another until the body lands |
| Controller.FallSpeedStaysBounded | Assets/Scripts/Player/PlayerController.cs:179-191 | with non-negative rates, vertical speed never drops below minus the maximum fall speed over any run of steps |
| Controller.DefaultsBoundFallSpeed | Assets/Scripts/SO/CharacterStats/CharacterStatsSO.cs:1-113 | the default stats asset meets the preconditions of FallSpeedStaysBounded |
| Controller.DisabledBodyStaysPut | Assets/Scripts/Player/PlayerController.cs:69-73 | a stopped body with control disabled stays unchanged over any run of physics steps, except that the rigidbody is set to zero |
| Controller.PlayerController.constructor | Assets/Scripts/Player/PlayerController.cs:87 | the controller starts at rest, ungrounded, without tokens, and with the leave time at the float minimum |
| Controller.PlayerController.Update | Assets/Scripts/Player/PlayerController.cs:39-43 | the object changes as UpdateSpec says |
| Controller.PlayerController.GatherInput | Assets/Scripts/Player/PlayerController.cs:45-65 | the object changes as GatherInputSpec says |
| Controller.PlayerController.FixedUpdate | Assets/Scripts/Player/PlayerController.cs:67-83 | the object changes as FixedUpdateSpec says |
| Controller.PlayerController.CheckCollisions | Assets/Scripts/Player/PlayerController.cs:90-120 | the object changes as CheckCollisionsSpec says |
| Controller.PlayerController.HasBufferedJump | Assets/Scripts/Player/PlayerController.cs:133 | the buffer token is held and the press is within the buffer window |
| Controller.PlayerController.CanUseCoyote | Assets/Scripts/Player/PlayerController.cs:134 | the coyote token is held, the body is airborne, and the leave is within coyote time |
| Controller.PlayerController.HandleJump | Assets/Scripts/Player/PlayerController.cs:136-145 | the object changes as HandleJumpSpec says |
| Controller.PlayerController.ExecuteJump | Assets/Scripts/Player/PlayerController.cs:147-156 | the object changes as ExecuteJumpSpec says |
| Controller.PlayerController.HandleDirection | Assets/Scripts/Player/PlayerController.cs:162-173 | horizontal speed becomes the steered speed and nothing else changes |
| Controller.PlayerController.HandleGravity | Assets/Scripts/Player/PlayerController.cs:179-191 | vertical speed becomes the fall speed and nothing else changes |
| Controller.PlayerController.ApplyMovement | Assets/Scripts/Player/PlayerController.cs:195 | the object changes as ApplyMovementSpec says |
| Controller.PlayerController.SetControl | Assets/Scripts/Player/PlayerController.cs:204-213 | the object changes as SetControlSpec says |
| Pool.FirstLive | Assets/Scripts/Utilities/ObjectPool.cs:39-47 | the index the dequeue loop stops at: every instance before it is destroyed, and the instance there, if any, is live |
| Pool.FirstLiveFound | Assets/Scripts/Utilities/ObjectPool.cs:39-49 | the loop finds an instance exactly when the queue holds a live one; otherwise a new one is created |
| Pool.EnqueueKeepsFront | Assets/Scripts/Utilities/ObjectPool.cs:63-70 | FIFO: a return does not change which instance is rented next while a live one is queued |
| Pool.EnqueueBehindDead | Assets/Scripts/Utilities/ObjectPool.cs:63-70 | returned behind only destroyed instances, a live instance is the next one rented |
| Pool.FirstLiveIsUnique | Assets/Scripts/Utilities/ObjectPool.cs:39-47 | a live position with only destroyed instances before it is where the loop stops |
| Pool.NewPool | Assets/Scripts/Utilities/ObjectPool.cs:16-23 | a null prefab is an argument error; otherwise the pool holds max(preload, 0) fresh, live, inactive clones |
| Pool.Instance.Clone | Assets/Scripts/Utilities/ObjectPool.cs:27-28 | a clone starts live and inactive |
| Pool.Instance.Destroy | Assets/Scripts/Utilities/ObjectPool.cs:77 | the instance is destroyed, and its active flag is untouched |
| Pool.ObjectPool.Preloaded | Assets/Scripts/Utilities/ObjectPool.cs:19-22 | the queue holds max(preload, 0) distinct fresh, live, inactive clones, and the callback has never run |
| Pool.ObjectPool.CreateInstance | Assets/Scripts/Utilities/ObjectPool.cs:25-30 | a fresh, live, inactive clone, counted as created |
| Pool.ObjectPool.Rent | Assets/Scripts/Utilities/ObjectPool.cs:36-58 | the result is live and active; it is the first live queued instance, with everything up to it dequeued, or a fresh clone and an emptied queue; no other instance changes |
| Pool.ObjectPool.Return | Assets/Scripts/Utilities/ObjectPool.cs:63-70 | a null or destroyed instance is ignored; otherwise the callback runs once, the instance is deactivated and enqueued at the back |
| Pool.ObjectPool.Clear | Assets/Scripts/Utilities/ObjectPool.cs:72-79 | the queue ends empty and every instance it held is destroyed |
| Trigger.IsPlayerReadsLayerBit | Assets/Scripts/Systems/Events/CinematicTrigger.cs:47-50 | the mask test is true exactly when the mask's bit for the layer (the shift count taken mod 32) is set |
| Trigger.SingleLayerMask | Assets/Scripts/Systems/Events/CinematicTrigger.cs:47-50 | a one-layer mask accepts exactly the objects on that layer, modulo 32 |
| Trigger.ExecuteSpec | Assets/Scripts/Systems/Events/CinematicTrigger.cs:55-71 | firing marks the zone used, raises the event once and, in one-time mode, deactivates the zone |
| Trigger.EnterSpec | Assets/Scripts/Systems/Events/CinematicTrigger.cs:32-42 | non-player entries, and entries into a used one-time zone, change nothing; other entries fire |
| Trigger.OneTimeFiresAtMostOnce | Assets/Scripts/Systems/Events/CinematicTrigger.cs:32-42 | over any sequence of entries a one-time zone fires at most once, and a used one never changes again |
| Trigger.RepeatableFiresPerPlayerEntry | Assets/Scripts/Systems/Events/CinematicTrigger.cs:32-71 | a repeatable zone fires once per player entry and is never deactivated |
| Trigger.NonPlayersChangeNothing | Assets/Scripts/Systems/Events/CinematicTrigger.cs:35 | entries of objects outside the mask leave the zone exactly as it was |
| Trigger.CinematicTrigger.constructor | Assets/Scripts/Systems/Events/CinematicTrigger.cs:25 | a zone starts unused, active and not yet fired |
| Trigger.CinematicTrigger.OnTriggerEnter2D | Assets/Scripts/Systems/Events/CinematicTrigger.cs:32-42 | the zone changes as EnterSpec says |
| Trigger.CinematicTrigger.ExecuteTrigger | Assets/Scripts/Systems/Events/CinematicTrigger.cs:55-71 | the zone changes as ExecuteSpec says |
| IdleState.EnterStopsHorizontalMovement | Assets/Scripts/Player/FSM/PlayerIdleState.cs:14-20 | entering Idle zeroes applied x and z movement and changes nothing else |
| IdleState.SwitchesToRunOnlyWhenRunning | Assets/Scripts/Player/FSM/PlayerIdleState.cs:6-12 | Idle switches exactly when movement and run are both pressed, and then to Run |
| RunState.EnterSetsRunSpeed | Assets/Scripts/Player/FSM/PlayerRunState.cs:17-22 | entering Run sets the speed to the run speed 8 and changes nothing else |
| RunState.SwitchesToIdleWithoutMovement | Assets/Scripts/Player/FSM/PlayerRunState.cs:9-15 | Run switches exactly when movement is released, and then to Idle |
| RunState.NoFlicker | Assets/Scripts/Player/FSM/PlayerRunState.cs:9-15 | on one hub, Idle and Run cannot both want to switch |
| GroundedState.EnterAppliesGravity | Assets/Scripts/Player/FSM/PlayerGroundedState.cs:21-25 | entering Grounded sets vertical movement to the gravity and changes nothing else |
| GroundedState.InitialSubIsIdleIffStill | Assets/Scripts/Player/FSM/PlayerGroundedState.cs:37-47 | the sub-state is Idle exactly when neither movement nor run is pressed, and Run otherwise |
| GroundedState.JumpHasPriority | Assets/Scripts/Player/FSM/PlayerGroundedState.cs:9-19 | a jump press switches to Jump; otherwise losing contact switches to Fall; otherwise no switch |
| JumpState.EnterAppliesImpulse | Assets/Scripts/Player/FSM/PlayerJumpState.cs:16-28 | entering Jump sets vertical speed to the jump power, consumes the intent, uses both tokens once, raises the jump event and consumes the jump stamina cost |
| JumpState.GravityEndsJumpEarly | Assets/Scripts/Player/FSM/PlayerJumpState.cs:91-109 | gravity is scaled by the early-end modifier exactly when jump is released while rising |
| JumpState.GravityApproachesTerminalSpeed | Assets/Scripts/Player/FSM/PlayerJumpState.cs:91-109 | vertical speed moves towards minus the maximum fall speed by at most gravity times the step, and nothing else changes |
| JumpState.NeverSwitchesToGrounded | Assets/Scripts/Player/FSM/PlayerJumpState.cs:47-59 | Jump's check never switches to Grounded |
| JumpState.FallsIffNotRising | Assets/Scripts/Player/FSM/PlayerJumpState.cs:47-59 | Jump switches to Fall exactly when vertical speed is not positive, and otherwise stays |
| FallState.DashStep | Assets/Scripts/Player/FSM/PlayerFallState.cs:88-98 | a dash attempt either switches to Dash with the hub untouched, or at most consumes the dash intent |
| FallState.CoyoteStep | Assets/Scripts/Player/FSM/PlayerFallState.cs:100-112 | a coyote attempt either switches to Jump, or at most consumes the jump intent and uses the jump buffer once |
| FallState.GravityApproachesTerminalSpeed | Assets/Scripts/Player/FSM/PlayerFallState.cs:75-84 | vertical speed moves towards minus the maximum fall speed by at most the fall acceleration times the step, and nothing else changes |
| FallState.LandingHasPriority | Assets/Scripts/Player/FSM/PlayerFallState.cs:38-58 | a grounded body switches to Grounded before any dash or coyote attempt |
| FallState.AirDashIsStaminaGated | Assets/Scripts/Player/FSM/PlayerFallState.cs:88-98 | an allowed air dash happens exactly when stamina covers its cost; otherwise the dash intent is dropped |
| FallState.FailedDashFallsThrough | Assets/Scripts/Player/FSM/PlayerFallState.cs:38-58 | a dash refused for stamina falls through to the coyote jump attempt in the same check |
| FallState.CoyoteJumpIsStaminaGated | Assets/Scripts/Player/FSM/PlayerFallState.cs:100-112 | a coyote jump happens exactly when stamina covers its cost; otherwise the intent is dropped and the buffer used |
| FallState.SwitchTargets | Assets/Scripts/Player/FSM/PlayerFallState.cs:38-58 | Fall only switches to Grounded, Dash or Jump, and leaves the hub untouched except for the dropped dash intent |
| FallState.WritesOnlyIntents | Assets/Scripts/Player/FSM/PlayerFallState.cs:38-112 | Fall's check writes no velocity, contact, dash, coyote or stamina field, and uses the jump buffer at most once |
| DashState.Direction | Assets/Scripts/Player/FSM/PlayerDashState.cs:82-94 | the dash direction is ±1: the input's sign, or the facing (the sign of the x scale) without input |
| DashState.EnterStartsDash | Assets/Scripts/Player/FSM/PlayerDashState.cs:20-40 | entering Dash consumes the intent, marks the dash, forbids another, consumes the dash stamina once, raises the dash event and sets a purely horizontal velocity of the dash power |
| DashState.UpdateHoldsDashVelocity | Assets/Scripts/Player/FSM/PlayerDashState.cs:96-100 | each update holds the velocity at direction times power horizontally and zero vertically |
| DashState.ExitStartsCooldown | Assets/Scripts/Player/FSM/PlayerDashState.cs:50-59 | leaving Dash ends the dash and starts the cooldown and stamina regeneration once each |
| DashState.EndsAfterDuration | Assets/Scripts/Player/FSM/PlayerDashState.cs:66-112 | Dash stays exactly while its duration has not elapsed, then switches to Grounded or Fall by contact |
| MachineSpec.SetSub | Assets/Scripts/Player/FSM/PlayerBaseState.cs:94-98 | the parent's sub-state becomes the child and the child's super-state the parent; no other link changes |
| MachineSpec.SetSubKeepsWellFormed | Assets/Scripts/Player/FSM/PlayerBaseState.cs:94-98 | linking a leaf under a state with sub-states keeps the hierarchy's levels |
| MachineSpec.InitializeSubSpec | Assets/Scripts/Player/FSM/PlayerGroundedState.cs:37-47 | Grounded, Jump and Fall link a leaf as their sub-state; Idle, Run and Dash change nothing |
| MachineSpec.EnterSpec | Assets/Scripts/Player/FSM/PlayerJumpState.cs:16-28 | entering logs the hook, links a leaf only for states with sub-states, and touches the Dash fields only for Dash |
| MachineSpec.ExitSpec | Assets/Scripts/Player/FSM/PlayerDashState.cs:50-59 | exiting logs the hook, and only Dash's exit writes the hub |
| MachineSpec.SwitchSpec | Assets/Scripts/Player/FSM/PlayerBaseState.cs:63-81 | a switch logs exit then entry, and keeps the levels when both states are on one level |
| MachineSpec.DecideKeepsLevel | Assets/Scripts/Player/FSM/PlayerFallState.cs:38-58 | every state's check switches only to another state of its own level, never to itself |
| MachineSpec.Resolve | Assets/Scripts/Player/FSM/PlayerBaseState.cs:63-81 | without a target only the hub writes happen; a same-level target keeps the levels |
| MachineSpec.CheckSpec | Assets/Scripts/Player/FSM/PlayerBaseState.cs:43 | CheckSwitchStates keeps the hierarchy's levels |
| MachineSpec.Physics | Assets/Scripts/Player/FSM/PlayerJumpState.cs:30-34 | the physics part of UpdateState writes only the hub |
| MachineSpec.UpdateStateSpec | Assets/Scripts/Player/FSM/PlayerBaseState.cs:37 | UpdateState keeps the hierarchy's levels |
| MachineSpec.UpdateStatesSpec | Assets/Scripts/Player/FSM/PlayerBaseState.cs:53-57 | the recursive update keeps the hierarchy's levels |
| MachineSpec.UpdateStatesStep | Assets/Scripts/Player/FSM/PlayerBaseState.cs:53-57 | UpdateStates is the state's update followed by the update of its sub-state as read after it |
| MachineSpec.RootSwitchSetsCurrent | Assets/Scripts/Player/FSM/PlayerBaseState.cs:72-75 | a root's switch makes the new state current |
| MachineSpec.LeafSwitchRebindsSuperState | Assets/Scripts/Player/FSM/PlayerBaseState.cs:76-80 | a leaf's switch rebinds its super-state's sub-state link to the new leaf, and leaves the current state alone |
| MachineSpec.OrphanLeafSwitchKeepsLinks | Assets/Scripts/Player/FSM/PlayerBaseState.cs:63-81 | a leaf without a super-state switches without rewiring anything |
| MachineSpec.RootSwitchLinksNewLeaf | Assets/Scripts/Player/FSM/PlayerBaseState.cs:63-81 | switching to a root with sub-states links it to a leaf in both directions |
| MachineSpec.CheckSwitchesAtMostOnce | Assets/Scripts/Player/FSM/PlayerBaseState.cs:63-81 | a check logs nothing, or exactly one exit followed by one entry of the decided target |
| MachineSpec.UpdatedKindsAppend | Assets/Scripts/Player/FSM/PlayerBaseState.cs:53-57 | the updated states of a joined log are those of its two parts |
| MachineSpec.CheckLogsNoUpdate | Assets/Scripts/Player/FSM/PlayerBaseState.cs:43 | a check only appends to the log, and never calls an UpdateState |
| MachineSpec.UpdateStateLogsItself | Assets/Scripts/Player/FSM/PlayerBaseState.cs:37 | UpdateState logs its own update first and updates no other state |
| MachineSpec.UpdateStatesUnfolds | Assets/Scripts/Player/FSM/PlayerBaseState.cs:53-57 | the recursion is at most one level deep: the sub-state is a leaf, so its UpdateStates is its UpdateState |
| MachineSpec.UpdateStatesLogsStateFirst | Assets/Scripts/Player/FSM/PlayerBaseState.cs:55 | UpdateStates starts with the state's own update |
| MachineSpec.UpdateStatesVisitsStateThenSubState | Assets/Scripts/Player/FSM/PlayerBaseState.cs:53-57 | one tick updates exactly the state and then the sub-state read after its update, or the state alone |
| MachineSpec.DashHasNoSubState | Assets/Scripts/Player/FSM/PlayerDashState.cs:74-78 | Dash never has a sub-state, before or after being entered |
| MachineSpec.Ticks | Assets/Scripts/Player/FSM/PlayerBaseState.cs:53-57 | repeated ticks keep the hierarchy's levels |
| MachineSpec.DashTick | Assets/Scripts/Player/FSM/PlayerDashState.cs:42-48 | within its duration, a tick of Dash only holds the dash velocity and logs the update |
| MachineSpec.DashLastsItsDuration | Assets/Scripts/Player/FSM/PlayerDashState.cs:42-72 | over ticks within the duration, Dash stays current with its start time, direction and links, and holds the last tick's dash velocity |
| MachineSpec.StaleLeafRebindsExitedRoot | Assets/Scripts/Player/FSM/PlayerBaseState.cs:53-81 | when Jump falls in a tick, its old leaf still updates and its own switch rebinds the exited Jump, not Fall |
| PlayerFsm.Context.UseJumpBuffer | Assets/Scripts/Player/FSM/PlayerFallState.cs:110 | records one use of the jump buffer |
| PlayerFsm.Context.UseCoyote | Assets/Scripts/Player/FSM/PlayerJumpState.cs:16-28 | records one use of coyote time |
| PlayerFsm.Context.InvokeJumpEvent | Assets/Scripts/Player/FSM/PlayerJumpState.cs:16-28 | records one jump event |
| PlayerFsm.Context.InvokeDashEvent | Assets/Scripts/Player/FSM/PlayerDashState.cs:20-40 | records one dash event |
| PlayerFsm.Context.StartDashCooldown | Assets/Scripts/Player/FSM/PlayerDashState.cs:50-59 | records one cooldown start |
| PlayerFsm.Context.ConsumeStamina | Assets/Scripts/Player/FSM/PlayerDashState.cs:20-40 | appends the amount to the stamina log |
| PlayerFsm.Context.RegenStamina | Assets/Scripts/Player/FSM/PlayerDashState.cs:50-59 | records one regeneration start |
| PlayerFsm.PlayerState.constructor | Assets/Scripts/Player/FSM/PlayerBaseState.cs:26-30 | a state starts unlinked, with the root flag of its kind |
| PlayerFsm.PlayerState.SetSuperState | Assets/Scripts/Player/FSM/PlayerBaseState.cs:86-89 | only this state's super-state link changes |
| PlayerFsm.PlayerState.SetSubState | Assets/Scripts/Player/FSM/PlayerBaseState.cs:94-98 | the machine changes as SetSub says |
| PlayerFsm.PlayerState.InitializeSubState | Assets/Scripts/Player/FSM/PlayerGroundedState.cs:37-47 | the machine changes as InitializeSubSpec says |
| PlayerFsm.PlayerState.ExitState | Assets/Scripts/Player/FSM/PlayerDashState.cs:50-59 | the machine changes as ExitSpec says |
| PlayerFsm.PlayerState.SetDashDirection | Assets/Scripts/Player/FSM/PlayerDashState.cs:82-94 | the direction becomes DashState.Direction of the hub |
| PlayerFsm.PlayerState.ApplyDashVelocity | Assets/Scripts/Player/FSM/PlayerDashState.cs:96-100 | the frame velocity becomes the dash velocity |
| PlayerFsm.PlayerState.EnterIdle | Assets/Scripts/Player/FSM/PlayerIdleState.cs:14-20 | the hub changes as IdleState.Enter says |
| PlayerFsm.PlayerState.EnterRun | Assets/Scripts/Player/FSM/PlayerRunState.cs:17-22 | the hub changes as RunState.Enter says |
| PlayerFsm.PlayerState.EnterGrounded | Assets/Scripts/Player/FSM/PlayerGroundedState.cs:21-25 | the hub changes as GroundedState.Enter says |
| PlayerFsm.PlayerState.EnterJump | Assets/Scripts/Player/FSM/PlayerJumpState.cs:16-28 | the hub changes as JumpState.Enter says |
| PlayerFsm.PlayerState.EnterDash | Assets/Scripts/Player/FSM/PlayerDashState.cs:20-40 | the start time is now, the direction is DashState.Direction, and the hub changes as DashState.Enter says |
| PlayerFsm.PlayerState.EnterState | Assets/Scripts/Player/FSM/PlayerBaseState.cs:34 | the machine changes as EnterSpec says |
| PlayerFsm.PlayerState.SwitchState | Assets/Scripts/Player/FSM/PlayerBaseState.cs:63-81 | the machine changes as SwitchSpec says |
| PlayerFsm.PlayerState.SetCurrentState | Assets/Scripts/Player/FSM/PlayerBaseState.cs:74 | only the context's current state changes |
| PlayerFsm.PlayerState.HandleJumpGravity | Assets/Scripts/Player/FSM/PlayerJumpState.cs:91-109 | the hub changes as JumpState.HandleGravity says |
| PlayerFsm.PlayerState.HandleFallGravity | Assets/Scripts/Player/FSM/PlayerFallState.cs:75-84 | the hub changes as FallState.HandleGravity says |
| PlayerFsm.PlayerState.HandleDashAttempt | Assets/Scripts/Player/FSM/PlayerFallState.cs:88-98 | it reports a switch exactly when stamina covers the dash cost, and the machine changes as the dash attempt decides |
| PlayerFsm.PlayerState.HandleCoyoteJumpAttempt | Assets/Scripts/Player/FSM/PlayerFallState.cs:100-112 | the machine changes as the coyote attempt decides |
| PlayerFsm.PlayerState.CheckFall | Assets/Scripts/Player/FSM/PlayerFallState.cs:38-58 | the machine changes as Fall's decision says |
| PlayerFsm.PlayerState.CheckIdle | Assets/Scripts/Player/FSM/PlayerIdleState.cs:6-12 | the machine changes as Idle's decision says |
| PlayerFsm.PlayerState.CheckRun | Assets/Scripts/Player/FSM/PlayerRunState.cs:9-15 | the machine changes as Run's decision says |
| PlayerFsm.PlayerState.CheckGrounded | Assets/Scripts/Player/FSM/PlayerGroundedState.cs:9-19 | the machine changes as Grounded's decision says |
| PlayerFsm.PlayerState.CheckJump | Assets/Scripts/Player/FSM/PlayerJumpState.cs:47-59 | the machine changes as Jump's decision says |
| PlayerFsm.PlayerState.CheckDash | Assets/Scripts/Player/FSM/PlayerDashState.cs:66-72 | the machine changes as Dash's decision, read against its start time, says |
| PlayerFsm.PlayerState.CheckSwitchStates | Assets/Scripts/Player/FSM/PlayerBaseState.cs:43 | the machine changes as CheckSpec says |
| PlayerFsm.PlayerState.UpdateState | Assets/Scripts/Player/FSM/PlayerBaseState.cs:37 | the machine changes as UpdateStateSpec says |
| PlayerFsm.PlayerState.HandlePhysics | Assets/Scripts/Player/FSM/PlayerFallState.cs:22-26 | the machine changes as Physics says |
| PlayerFsm.PlayerState.UpdateStates | Assets/Scripts/Player/FSM/PlayerBaseState.cs:53-57 | the machine changes as UpdateStatesSpec says, and the factory stays valid |
| PlayerFsm.Factory.constructor | Assets/Scripts/Player/FSM/PlayerStateFactory.cs:30-41 | one fresh, unlinked state per kind, registered under its kind |
| PlayerFsm.Factory.StateOf | Assets/Scripts/Player/FSM/PlayerStateFactory.cs:46-51 | the accessor returns the registered state of that kind, owned by this factory |
| IdleState.Enter | Assets/Scripts/Player/FSM/PlayerIdleState.cs:14-20 | the hub after Idle's entry; what it changes is proved in IdleState.EnterStopsHorizontalMovement |
| IdleState.Check | Assets/Scripts/Player/FSM/PlayerIdleState.cs:6-12 | Idle's switch decision; proved in IdleState.SwitchesToRunOnlyWhenRunning |
| RunState.Enter | Assets/Scripts/Player/FSM/PlayerRunState.cs:17-22 | the hub after Run's entry; proved in RunState.EnterSetsRunSpeed |
| RunState.Check | Assets/Scripts/Player/FSM/PlayerRunState.cs:9-15 | Run's switch decision; proved in RunState.SwitchesToIdleWithoutMovement and RunState.NoFlicker |
| GroundedState.Enter | Assets/Scripts/Player/FSM/PlayerGroundedState.cs:21-35 | the hub after Grounded's entry (its HandleGravity); proved in GroundedState.EnterAppliesGravity |
| GroundedState.InitialSub | Assets/Scripts/Player/FSM/PlayerGroundedState.cs:37-47 | the leaf Grounded links on entry; proved in GroundedState.InitialSubIsIdleIffStill |
| GroundedState.Check | Assets/Scripts/Player/FSM/PlayerGroundedState.cs:9-19 | Grounded's switch decision; proved in GroundedState.JumpHasPriority |
| JumpState.Enter | Assets/Scripts/Player/FSM/PlayerJumpState.cs:16-28 | the hub after Jump's entry, the impulse included; proved in JumpState.EnterAppliesImpulse |
| JumpState.InitialSub | Assets/Scripts/Player/FSM/PlayerJumpState.cs:61-72 | the leaf Jump links on entry: Idle when the horizontal input is under 0.01 in size, Run otherwise |
| JumpState.GravityRate | Assets/Scripts/Player/FSM/PlayerJumpState.cs:91-109 | the gravity of one Jump update; proved in JumpState.GravityEndsJumpEarly |
| JumpState.HandleGravity | Assets/Scripts/Player/FSM/PlayerJumpState.cs:91-109 | the hub after Jump's gravity step; proved in JumpState.GravityApproachesTerminalSpeed |
| JumpState.Check | Assets/Scripts/Player/FSM/PlayerJumpState.cs:47-59 | Jump's switch decision; proved in JumpState.FallsIffNotRising and JumpState.NeverSwitchesToGrounded |
| FallState.InitialSub | Assets/Scripts/Player/FSM/PlayerFallState.cs:60-70 | the leaf Fall links on entry: Idle when the horizontal input is under 0.01 in size, Run otherwise |
| FallState.HandleGravity | Assets/Scripts/Player/FSM/PlayerFallState.cs:75-84 | the hub after Fall's gravity step; proved in FallState.GravityApproachesTerminalSpeed |
| FallState.HandleDashAttempt | Assets/Scripts/Player/FSM/PlayerFallState.cs:88-98 | the dash attempt's decision; proved in FallState.DashStep and FallState.AirDashIsStaminaGated |
| FallState.HandleCoyoteJumpAttempt | Assets/Scripts/Player/FSM/PlayerFallState.cs:100-112 | the coyote attempt's decision; proved in FallState.CoyoteStep and FallState.CoyoteJumpIsStaminaGated |
| FallState.Check | Assets/Scripts/Player/FSM/PlayerFallState.cs:38-58 | Fall's switch decision in priority order; proved in FallState.LandingHasPriority, FallState.FailedDashFallsThrough, FallState.SwitchTargets and FallState.WritesOnlyIntents |
| DashState.Velocity | Assets/Scripts/Player/FSM/PlayerDashState.cs:96-100 | the dash velocity, direction times power horizontally and zero vertically |
| DashState.Enter | Assets/Scripts/Player/FSM/PlayerDashState.cs:20-40 | the hub after Dash's entry; proved in DashState.EnterStartsDash |
| DashState.ApplyVelocity | Assets/Scripts/Player/FSM/PlayerDashState.cs:42-48 | the hub after a Dash update's velocity write; proved in DashState.UpdateHoldsDashVelocity |
| DashState.Exit | Assets/Scripts/Player/FSM/PlayerDashState.cs:50-59 | the hub after Dash's exit; proved in DashState.ExitStartsCooldown |
| DashState.Check | Assets/Scripts/Player/FSM/PlayerDashState.cs:66-112 | Dash's switch decision; proved in DashState.EndsAfterDuration |
| Controller.TargetSpeed | Assets/Scripts/Player/PlayerController.cs:164-171 | the speed HandleDirection steers towards: rest without input, else the input times the top speed |
| Controller.SteeredSpeed | Assets/Scripts/Player/PlayerController.cs:162-173 | the horizontal speed after one step; proved in Controller.SteeringApproachesTarget |
| Controller.FallSpeed | Assets/Scripts/Player/PlayerController.cs:179-191 | the vertical speed after one step; proved in Controller.GravityNeverPassesTerminalSpeed |
| Controller.HandleDirectionSpec | Assets/Scripts/Player/PlayerController.cs:162-173 | HandleDirection on the body: only the horizontal speed changes, to the steered speed |
| Controller.HandleGravitySpec | Assets/Scripts/Player/PlayerController.cs:179-191 | HandleGravity on the body: only the vertical speed changes, to the fall speed |
| Controller.StepSpec | Assets/Scripts/Player/PlayerController.cs:39-83 | one engine callback: a frame runs Update, a physics step runs FixedUpdate; runs of them are what NoTokensNoJump, NoSecondJumpBeforeLanding, FallSpeedStaysBounded and DisabledBodyStaysPut are about |
| StatsModel.SetHealthOn | Assets/Scripts/Systems/Stats/CharacterStatsModel.cs:64-73 | SetHealth on the model's value; proved in StatsModel.SetterNotifiesOnlyOnChange and StatsModel.SettersAreIndependent |
| StatsModel.SetStaminaOn | Assets/Scripts/Systems/Stats/CharacterStatsModel.cs:78-86 | SetStamina on the model's value; proved in the same two lemmas |
| StatsModel.Create | Assets/Scripts/Systems/Stats/CharacterStatsModel.cs:33-41 | the constructed value; proved in StatsModel.CreateInRange |
| StatsModel.Apply | Assets/Scripts/Systems/Stats/CharacterStatsModel.cs:64-95 | each public mutator on the value; proved in StatsModel.ApplyKeepsRange and StatsModel.EnoughStaminaConsumesExactly |
| Trigger.IsPlayer | Assets/Scripts/Systems/Events/CinematicTrigger.cs:47-50 | the layer-mask test, with the shift count taken mod 32 as C# does; proved in Trigger.IsPlayerReadsLayerBit and Trigger.SingleLayerMask |
| Hub.HasEnoughStamina | Assets/Scripts/Player/FSM/PlayerFallState.cs:90 | the stats controller's gate as the states call it: at least the cost in stamina; used by FallState.AirDashIsStaminaGated and FallState.CoyoteJumpIsStaminaGated |
| MachineSpec.WellFormed | Assets/Scripts/Player/FSM/PlayerBaseState.cs:63-98 | the hierarchy's levels: only Grounded, Jump and Fall hold a sub-state, and it is a leaf; only leaves have a super-state; the current state is a root; kept by every operation (UpdateStatesSpec, Ticks) |
| MachineSpec.EnterOwn | Assets/Scripts/Player/FSM/PlayerBaseState.cs:34 | each state's own EnterState writes, before its InitializeSubState; only Dash touches its start time and direction |
| MachineSpec.Decide | Assets/Scripts/Player/FSM/PlayerBaseState.cs:43 | each kind's CheckSwitchStates decision; proved in MachineSpec.DecideKeepsLevel |

## Left out

- StatsModel.Create: the notification logs record every `OnHealthChanged?.Invoke` and `OnStaminaChanged?.Invoke` whether or not anyone is subscribed, so they include the constructor's two calls, which reach no observer because subscribers attach only after construction.
- Physics casts are left out: `Physics2D.CapsuleCast` and the `queriesStartInColliders` toggle. The ground and ceiling results are the parameter `Contacts`.
- The rigidbody's current vertical velocity is left out as a physics quantity. `HandleJump` receives it as the parameter `rbVy`.
- Input polling is left out: `Input.GetButtonDown`, `Input.GetAxisRaw` and the input manager singleton. Their readings are the parameter `RawInput`.
- `Time.time`, `Time.deltaTime` and `Time.fixedDeltaTime` are left out. They are the parameters `deltaTime`, `now` and `dt`.
- Float semantics are left out: rounding, NaN and infinities. Every float is a `real`. `float.MinValue` is the constant `FloatMinValue`.
- The interleaving of calls to different collaborators is left out. Examples are UseJumpBuffer, UseCoyote, ConsumeStamina and the jump event in Jump's entry, and StartDashCooldown and RegenStamina in Dash's exit. The model keeps how many of each happened, and the stamina amounts in order, but not which came first.
- Controller.ExecuteJumpSpec: the stamina handed to the stats controller is the literal 10 that `ExecuteJump` passes. It is not the asset's jump stamina cost.
- Controller.FallSpeedStaysBounded: it needs non-negative rates, and a jump power and grounding force at or above minus the maximum fall speed. The asset does not enforce either; DefaultsBoundFallSpeed shows that the default asset meets both.
- Animation, audio, visuals, gizmos, `OnValidate` and the debug log lines are left out, because none of them affects gameplay state.
- The `Awake` component lookups are left out.
- The state machine's MonoBehaviour driver is left out: which state it starts in and when it calls `UpdateStates`. That file is a property bag, so ticks are modelled directly by `MachineSpec.Ticks`.
- PlayerFsm.Factory.constructor: it requires that the context has no current state yet. The source does not check this; it only ever builds the factory before choosing a first state.
- PlayerFsm.PlayerState.UpdateStates: it requires the hierarchy's levels to hold. Nothing in the source can break them: every switch stays on its own level (DecideKeepsLevel).
- The Jump state's branch that switches to Grounded cannot be reached (JumpState.NeverSwitchesToGrounded). In `CheckJump` it is an `assert false`.
- Dash's two private fields, start time and direction, exist on every `PlayerState` object. Only the Dash state's copies are ever read.
- The newer stats controller behind the state hub (`HasEnoughStamina`, `ConsumeStamina`, `RegenStamina`) is left out as code. Its gate is a comparison with the hub's stamina, and its calls are logged.
- The dash cooldown coroutine and the events raised to listeners are logged as counters and are not modelled further.
- The `CharacterStatsController` wrapper and the stats view are left out, because they forward to the model or draw UI.
- The `Math.Clamp` exception on a negative maximum is left out. The stats model's mutators require non-negative maxima instead of modelling the throw.
- Pool: positions, rotations, scale and the transform parent set by `Rent` and `Return` are left out, because they do not affect which instance is handed out.
- Pool: `Object.Destroy` is modelled as taking effect at once. In the engine it takes effect at the end of the frame.
- Pool: the `OnReturn` callback is a counter of its invocations. What a callback does is not modelled.
- Pool: the generic `T` is one `Instance` class with the two flags the pool reads and writes.
- Trigger: the engine delivers trigger events only to active objects. The model keeps the `active` flag but does not stop entries into an inactive zone; a deactivated one-time zone ignores them anyway.
- Trigger: the debug log line is left out. The inspector-only `OnDrawGizmos` is left out too.
- Asset loading, the singleton base, the audio manager, the cinematic manager and the editor bootstrapper are left out. They are outside the gameplay core.
