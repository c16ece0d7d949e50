/**
 * The hierarchical state machine as a value: the hub, the context's current
 * state, every state's sub-state and super-state link, the Dash state's two
 * private fields, and the log of lifecycle hooks called so far. The classes
 * in PlayerFsm are proved to change this value exactly as the functions
 * here say.
 */
module MachineSpec {
  import opened Wrappers
  import opened UnityMath
  import opened Hub
  import opened StatsConfig
  import IdleState
  import RunState
  import GroundedState
  import JumpState
  import FallState
  import DashState

  /** One call of a lifecycle hook on the state of the given kind. */
  datatype Hook = Entered(kind: PlayerStates) | Updated(kind: PlayerStates) | Exited(kind: PlayerStates)

  /** What the engine reads from outside: the stats asset, Time.time and Time.fixedDeltaTime. */
  datatype Env = Env(stats: CharacterStats, now: real, dt: real)

  /** One link field of each of the six states: the kind it points to, or None for null. */
  datatype Links = Links(
    idle: Option<PlayerStates>,
    run: Option<PlayerStates>,
    grounded: Option<PlayerStates>,
    jump: Option<PlayerStates>,
    dash: Option<PlayerStates>,
    fall: Option<PlayerStates>)
  {
    /** The link of the state of kind `k`. */
    function Get(k: PlayerStates): Option<PlayerStates>
    {
      match k
      case Idle => idle
      case Run => run
      case Grounded => grounded
      case Jump => jump
      case Dash => dash
      case Fall => fall
    }

    /** The links with the one of kind `k` replaced by `v`. */
    function Set(k: PlayerStates, v: Option<PlayerStates>): (r: Links)
      ensures r.Get(k) == v
      ensures forall j :: j != k ==> r.Get(j) == Get(j)
    {
      match k
      case Idle => this.(idle := v)
      case Run => this.(run := v)
      case Grounded => this.(grounded := v)
      case Jump => this.(jump := v)
      case Dash => this.(dash := v)
      case Fall => this.(fall := v)
    }
  }

  /** Two link records that agree on every kind are equal. */
  lemma LinksEqual(a: Links, b: Links)
    requires forall k :: a.Get(k) == b.Get(k)
    ensures a == b
  {
    assert a.Get(Idle) == b.Get(Idle) && a.Get(Run) == b.Get(Run) && a.Get(Grounded) == b.Get(Grounded);
    assert a.Get(Jump) == b.Get(Jump) && a.Get(Dash) == b.Get(Dash) && a.Get(Fall) == b.Get(Fall);
  }

  /** Six null links, as the factory creates the states. */
  const NoLinks: Links := Links(None, None, None, None, None, None)

  /** The flyweight states' mutable fields: every sub-state and super-state link, and Dash's own two fields. */
  datatype Machine = Machine(
    data: HubData,
    current: Option<PlayerStates>,
    sub: Links,
    sup: Links,
    dashStartTime: real,
    dashDirection: real,
    trace: seq<Hook>)

  /**
   * The hierarchy's levels: only Grounded, Jump and Fall have a sub-state and
   * it is a leaf; only leaves have a super-state and it is one of those
   * three; the current state is a root.
   */
  predicate WellFormed(m: Machine)
  {
    && (forall k :: m.sub.Get(k).Some? ==> HasSubStates(k) && !IsRootKind(m.sub.Get(k).value))
    && (forall k :: m.sup.Get(k).Some? ==> !IsRootKind(k) && HasSubStates(m.sup.Get(k).value))
    && (m.current.Some? ==> IsRootKind(m.current.value))
  }

  /**
   * SetSubState on `parent` with `child`: the parent's sub-state becomes the
   * child and the child's super-state becomes the parent; no other link, and
   * nothing else, changes.
   */
  function SetSub(m: Machine, parent: PlayerStates, child: PlayerStates): (r: Machine)
    ensures r.sub.Get(parent) == Some(child)
    ensures r.sup.Get(child) == Some(parent)
    ensures forall k :: k != parent ==> r.sub.Get(k) == m.sub.Get(k)
    ensures forall k :: k != child ==> r.sup.Get(k) == m.sup.Get(k)
    ensures r.(sub := m.sub, sup := m.sup) == m
  {
    m.(sub := m.sub.Set(parent, Some(child)), sup := m.sup.Set(child, Some(parent)))
  }

  /** A kind with sub-states linking a leaf keeps the levels. */
  lemma SetSubKeepsWellFormed(m: Machine, parent: PlayerStates, child: PlayerStates)
    requires WellFormed(m) && HasSubStates(parent) && !IsRootKind(child)
    ensures WellFormed(SetSub(m, parent, child))
  {
  }

  /**
   * InitializeSubState of the given kind: Grounded, Jump and Fall link the
   * leaf their rule picks (without entering it); the others do nothing.
   */
  function InitializeSubSpec(m: Machine, k: PlayerStates): (r: Machine)
    ensures !HasSubStates(k) ==> r == m
    ensures HasSubStates(k) ==> r.sub.Get(k).Some? && !IsRootKind(r.sub.Get(k).value)
    ensures WellFormed(m) ==> WellFormed(r)
  {
    match k
    case Grounded => SetSub(m, Grounded, GroundedState.InitialSub(m.data))
    case Jump => SetSub(m, Jump, JumpState.InitialSub(m.data))
    case Fall => SetSub(m, Fall, FallState.InitialSub(m.data))
    case _ => m
  }

  /**
   * The state's own writes in EnterState, before its InitializeSubState:
   * only the hub and, for Dash, its start time and direction change.
   */
  function EnterOwn(m: Machine, k: PlayerStates, env: Env): (r: Machine)
    ensures r.(data := m.data, dashStartTime := m.dashStartTime, dashDirection := m.dashDirection) == m
    ensures k != Dash ==> r.dashStartTime == m.dashStartTime && r.dashDirection == m.dashDirection
  {
    match k
    case Idle => m.(data := IdleState.Enter(m.data))
    case Run => m.(data := RunState.Enter(m.data))
    case Grounded => m.(data := GroundedState.Enter(m.data))
    case Jump => m.(data := JumpState.Enter(m.data, env.stats))
    case Fall => m
    case Dash =>
      var dir := DashState.Direction(m.data);
      m.(data := DashState.Enter(m.data, env.stats, dir), dashStartTime := env.now, dashDirection := dir)
  }

  /**
   * EnterState of the given kind: the hook is logged, the state's own writes
   * happen, then its InitializeSubState.
   */
  function EnterSpec(m: Machine, k: PlayerStates, env: Env): (r: Machine)
    ensures r.trace == m.trace + [Entered(k)]
    ensures r.current == m.current
    ensures !HasSubStates(k) ==> r.sub == m.sub && r.sup == m.sup
    ensures HasSubStates(k) ==>
      && r.sub.Get(k).Some? && !IsRootKind(r.sub.Get(k).value)
      && r.sub == m.sub.Set(k, r.sub.Get(k)) && r.sup == m.sup.Set(r.sub.Get(k).value, Some(k))
    ensures k != Dash ==> r.dashStartTime == m.dashStartTime && r.dashDirection == m.dashDirection
    ensures WellFormed(m) ==> WellFormed(r)
  {
    InitializeSubSpec(EnterOwn(m.(trace := m.trace + [Entered(k)]), k, env), k)
  }

  /** ExitState of the given kind: the hook is logged and only Dash writes anything. */
  function ExitSpec(m: Machine, k: PlayerStates): (r: Machine)
    ensures r.trace == m.trace + [Exited(k)]
    ensures r.(data := m.data, trace := m.trace) == m
    ensures k != Dash ==> r.data == m.data
  {
    var m1 := m.(trace := m.trace + [Exited(k)]);
    if k == Dash then m1.(data := DashState.Exit(m.data)) else m1
  }

  /**
   * SwitchState from `from` to `to`: exit the old state, enter the new one,
   * then make the new state current (old state a root) or the sub-state of
   * the old state's super-state, read after the entry (old state a leaf
   * with a super-state); a leaf without a super-state rewires nothing.
   */
  function SwitchSpec(m: Machine, from: PlayerStates, to: PlayerStates, env: Env): (r: Machine)
    ensures r.trace == m.trace + [Exited(from), Entered(to)]
    ensures WellFormed(m) && IsRootKind(from) == IsRootKind(to) ==> WellFormed(r)
  {
    var m1 := EnterSpec(ExitSpec(m, from), to, env);
    if IsRootKind(from) then m1.(current := Some(to))
    else if m1.sup.Get(from).Some? then SetSub(m1, m1.sup.Get(from).value, to)
    else m1
  }

  /** The decision CheckSwitchStates of the given kind takes on the current hub. */
  function Decide(m: Machine, k: PlayerStates, env: Env): (dec: Decision)
  {
    match k
    case Idle => IdleState.Check(m.data)
    case Run => RunState.Check(m.data)
    case Grounded => GroundedState.Check(m.data)
    case Jump => JumpState.Check(m.data)
    case Fall => FallState.Check(m.data, env.stats)
    case Dash => DashState.Check(m.data, env.now, m.dashStartTime, env.stats)
  }

  /**
   * Every state only ever switches to another state of its own level: leaves
   * to leaves, roots to roots, never to itself.
   */
  lemma DecideKeepsLevel(m: Machine, k: PlayerStates, env: Env)
    ensures var t := Decide(m, k, env).target;
      t.Some? ==> IsRootKind(t.value) == IsRootKind(k) && t.value != k
  {
    if k == Fall {
      FallState.SwitchTargets(m.data, env.stats);
    }
  }

  /** Carrying out a decision of state `k`: its hub writes, then the switch it names, if any. */
  function Resolve(m: Machine, k: PlayerStates, dec: Decision, env: Env): (r: Machine)
    ensures dec.target.None? ==> r == m.(data := dec.data)
    ensures WellFormed(m) && (dec.target.Some? ==> IsRootKind(dec.target.value) == IsRootKind(k)) ==> WellFormed(r)
  {
    var m1 := m.(data := dec.data);
    if dec.target.Some? then SwitchSpec(m1, k, dec.target.value, env) else m1
  }

  /** CheckSwitchStates: the state's own writes, then at most one switch. */
  function CheckSpec(m: Machine, k: PlayerStates, env: Env): (r: Machine)
    ensures WellFormed(m) ==> WellFormed(r)
  {
    DecideKeepsLevel(m, k, env);
    Resolve(m, k, Decide(m, k, env), env)
  }

  /** UpdateState's own physics: Jump and Fall apply gravity, Dash holds its velocity; only the hub changes. */
  function Physics(m: Machine, k: PlayerStates, env: Env): (r: Machine)
    ensures r.(data := m.data) == m
  {
    match k
    case Jump => m.(data := JumpState.HandleGravity(m.data, env.stats, env.dt))
    case Fall => m.(data := FallState.HandleGravity(m.data, env.stats, env.dt))
    case Dash => m.(data := DashState.ApplyVelocity(m.data, m.dashDirection, env.stats))
    case _ => m
  }

  /** UpdateState: the hook is logged, the state's physics run, then its check. */
  function UpdateStateSpec(m: Machine, k: PlayerStates, env: Env): (r: Machine)
    ensures WellFormed(m) ==> WellFormed(r)
  {
    CheckSpec(Physics(m.(trace := m.trace + [Updated(k)]), k, env), k, env)
  }

  /**
   * UpdateStates: the state's own update, then the update of whatever its
   * sub-state link holds after it. Leaves have no sub-state, so the
   * recursion is at most one level deep.
   */
  function UpdateStatesSpec(m: Machine, k: PlayerStates, env: Env): (r: Machine)
    requires WellFormed(m)
    ensures WellFormed(r)
    decreases if IsRootKind(k) then 1 else 0
  {
    var m1 := UpdateStateSpec(m, k, env);
    if m1.sub.Get(k).Some? then UpdateStatesSpec(m1, m1.sub.Get(k).value, env) else m1
  }

  /** One unfolding of UpdateStatesSpec, for callers that follow it step by step. */
  lemma UpdateStatesStep(m: Machine, k: PlayerStates, env: Env)
    requires WellFormed(m)
    ensures var m1 := UpdateStateSpec(m, k, env);
      && WellFormed(m1)
      && UpdateStatesSpec(m, k, env) ==
           if m1.sub.Get(k).Some? then UpdateStatesSpec(m1, m1.sub.Get(k).value, env) else m1
  {
  }

  /** After a root switches, the new state is the context's current state. */
  lemma RootSwitchSetsCurrent(m: Machine, from: PlayerStates, to: PlayerStates, env: Env)
    requires IsRootKind(from)
    ensures SwitchSpec(m, from, to, env).current == Some(to)
  {
  }

  /**
   * After a leaf with super-state S switches to another leaf, S's sub-state
   * is the new leaf and its super-state is S; no other link and not the
   * current state change.
   */
  lemma LeafSwitchRebindsSuperState(m: Machine, from: PlayerStates, to: PlayerStates, env: Env)
    requires !IsRootKind(from) && !IsRootKind(to) && m.sup.Get(from).Some?
    ensures var r := SwitchSpec(m, from, to, env);
      && r.sub == m.sub.Set(m.sup.Get(from).value, Some(to))
      && r.sup == m.sup.Set(to, m.sup.Get(from))
      && r.current == m.current
  {
  }

  /** A leaf without a super-state still exits and enters, but rewires nothing. */
  lemma OrphanLeafSwitchKeepsLinks(m: Machine, from: PlayerStates, to: PlayerStates, env: Env)
    requires !IsRootKind(from) && !IsRootKind(to) && m.sup.Get(from).None?
    ensures var r := SwitchSpec(m, from, to, env);
      && r.sub == m.sub && r.sup == m.sup && r.current == m.current
      && r.trace == m.trace + [Exited(from), Entered(to)]
  {
  }

  /** A root switch leaves the new root and its initial leaf linked both ways. */
  lemma RootSwitchLinksNewLeaf(m: Machine, from: PlayerStates, to: PlayerStates, env: Env)
    requires IsRootKind(from) && HasSubStates(to)
    ensures var r := SwitchSpec(m, from, to, env);
      r.sub.Get(to).Some? && r.sup.Get(r.sub.Get(to).value) == Some(to)
  {
  }

  /**
   * A check performs at most one switch: with no target it calls no hook,
   * with target t it calls exactly the old state's exit and then t's entry.
   */
  lemma CheckSwitchesAtMostOnce(m: Machine, k: PlayerStates, env: Env)
    ensures Decide(m, k, env).target.None? ==> CheckSpec(m, k, env).trace == m.trace
    ensures Decide(m, k, env).target.Some? ==>
      CheckSpec(m, k, env).trace == m.trace + [Exited(k), Entered(Decide(m, k, env).target.value)]
  {
  }

  /** The kind of an Update hook, none for the other hooks. */
  function UpdatedKind(h: Hook): (ks: seq<PlayerStates>)
    ensures |ks| <= 1
  {
    if h.Updated? then [h.kind] else []
  }

  /** The kinds of the Update hooks in a log, in order. */
  function UpdatedKinds(t: seq<Hook>): (ks: seq<PlayerStates>)
    ensures |ks| <= |t|
  {
    if |t| == 0 then [] else UpdatedKind(t[0]) + UpdatedKinds(t[1..])
  }

  lemma {:induction false} UpdatedKindsAppend(a: seq<Hook>, b: seq<Hook>)
    ensures UpdatedKinds(a + b) == UpdatedKinds(a) + UpdatedKinds(b)
    decreases |a|
  {
    if |a| == 0 {
      assert a + b == b;
    } else {
      assert (a + b)[0] == a[0];
      assert (a + b)[1..] == a[1..] + b;
      UpdatedKindsAppend(a[1..], b);
      calc {
        UpdatedKinds(a + b);
        UpdatedKind(a[0]) + UpdatedKinds(a[1..] + b);
        UpdatedKind(a[0]) + (UpdatedKinds(a[1..]) + UpdatedKinds(b));
        (UpdatedKind(a[0]) + UpdatedKinds(a[1..])) + UpdatedKinds(b);
      }
    }
  }

  /** A check logs no Update hook. */
  lemma CheckLogsNoUpdate(m: Machine, k: PlayerStates, env: Env)
    ensures CheckSpec(m, k, env).trace[..|m.trace|] == m.trace
    ensures UpdatedKinds(CheckSpec(m, k, env).trace[|m.trace|..]) == []
  {
    var r := CheckSpec(m, k, env);
    if Decide(m, k, env).target.Some? {
      var t := Decide(m, k, env).target.value;
      assert r.trace[|m.trace|..] == [Exited(k), Entered(t)];
      assert [Exited(k), Entered(t)][1..] == [Entered(t)];
    } else {
      assert r.trace[|m.trace|..] == [];
    }
  }

  /** A state's own update logs exactly one Update hook, its own, first. */
  lemma UpdateStateLogsItself(m: Machine, k: PlayerStates, env: Env)
    ensures var r := UpdateStateSpec(m, k, env);
      && |r.trace| > |m.trace| && r.trace[..|m.trace|] == m.trace
      && r.trace[|m.trace|] == Updated(k)
      && UpdatedKinds(r.trace[|m.trace|..]) == [k]
  {
    var m2 := Physics(m.(trace := m.trace + [Updated(k)]), k, env);
    assert m2.trace == m.trace + [Updated(k)];
    var r := CheckSpec(m2, k, env);
    CheckLogsNoUpdate(m2, k, env);
    var rest := r.trace[|m2.trace|..];
    assert r.trace[|m.trace|..] == [Updated(k)] + rest;
    UpdatedKindsAppend([Updated(k)], rest);
    assert UpdatedKinds([Updated(k)]) == [k] by {
      assert [Updated(k)][1..] == [];
    }
  }

  /** UpdateStates of a root is its own update followed by at most its leaf's own update. */
  lemma UpdateStatesUnfolds(m: Machine, k: PlayerStates, env: Env)
    requires WellFormed(m)
    ensures var m1 := UpdateStateSpec(m, k, env);
      UpdateStatesSpec(m, k, env) ==
        if m1.sub.Get(k).Some? then UpdateStateSpec(m1, m1.sub.Get(k).value, env) else m1
  {
    var m1 := UpdateStateSpec(m, k, env);
    if m1.sub.Get(k).Some? {
      var l := m1.sub.Get(k).value;
      assert UpdateStateSpec(m1, l, env).sub.Get(l).None?;
    }
  }

  /** A log extended by one update step and then by another holds both steps' Update hooks, in order. */
  lemma TwoUpdateSteps(t0: seq<Hook>, t1: seq<Hook>, t2: seq<Hook>, k: PlayerStates, l: PlayerStates)
    requires |t1| > |t0| && t1[..|t0|] == t0 && t1[|t0|] == Updated(k) && UpdatedKinds(t1[|t0|..]) == [k]
    requires |t2| > |t1| && t2[..|t1|] == t1 && UpdatedKinds(t2[|t1|..]) == [l]
    ensures |t2| > |t0| && t2[..|t0|] == t0 && t2[|t0|] == Updated(k)
    ensures UpdatedKinds(t2[|t0|..]) == [k, l]
  {
    assert t2[|t0|..] == t1[|t0|..] + t2[|t1|..];
    UpdatedKindsAppend(t1[|t0|..], t2[|t1|..]);
  }

  /** UpdateStates only appends to the log, starting with the state's own Update hook. */
  lemma UpdateStatesLogsStateFirst(m: Machine, k: PlayerStates, env: Env)
    requires WellFormed(m)
    ensures var r := UpdateStatesSpec(m, k, env);
      && |r.trace| > |m.trace| && r.trace[..|m.trace|] == m.trace
      && r.trace[|m.trace|] == Updated(k)
  {
    var m1 := UpdateStateSpec(m, k, env);
    UpdateStateLogsItself(m, k, env);
    UpdateStatesUnfolds(m, k, env);
    if m1.sub.Get(k).Some? {
      var l := m1.sub.Get(k).value;
      var r := UpdateStateSpec(m1, l, env);
      UpdateStateLogsItself(m1, l, env);
      TwoUpdateSteps(m.trace, m1.trace, r.trace, k, l);
    }
  }

  /**
   * UpdateStates updates the state itself and then, if its sub-state link
   * holds a state after that update, that state, and no other state.
   */
  lemma UpdateStatesVisitsStateThenSubState(m: Machine, k: PlayerStates, env: Env)
    requires WellFormed(m)
    ensures var m1 := UpdateStateSpec(m, k, env);
      m1.sub.Get(k).Some? ==> UpdatedKinds(UpdateStatesSpec(m, k, env).trace[|m.trace|..]) == [k, m1.sub.Get(k).value]
    ensures var m1 := UpdateStateSpec(m, k, env);
      m1.sub.Get(k).None? ==> UpdatedKinds(UpdateStatesSpec(m, k, env).trace[|m.trace|..]) == [k]
  {
    var m1 := UpdateStateSpec(m, k, env);
    UpdateStateLogsItself(m, k, env);
    UpdateStatesUnfolds(m, k, env);
    if m1.sub.Get(k).Some? {
      var l := m1.sub.Get(k).value;
      var r := UpdateStateSpec(m1, l, env);
      UpdateStateLogsItself(m1, l, env);
      TwoUpdateSteps(m.trace, m1.trace, r.trace, k, l);
    }
  }

  /** Dash never has a sub-state in a well-formed machine: its InitializeSubState links nothing. */
  lemma DashHasNoSubState(m: Machine, env: Env)
    requires WellFormed(m)
    ensures m.sub.Get(Dash).None?
    ensures EnterSpec(m, Dash, env).sub.Get(Dash).None?
  {
  }

  /** The driver of the hierarchy: each tick updates the current state and its sub-state. */
  function Ticks(m: Machine, envs: seq<Env>): (r: Machine)
    requires WellFormed(m)
    ensures WellFormed(r)
    decreases |envs|
  {
    if |envs| == 0 || m.current.None? then m
    else Ticks(UpdateStatesSpec(m, m.current.value, envs[0]), envs[1..])
  }

  /** One tick of a well-formed Dash before its duration is over: velocity held, nothing else but the log changes. */
  lemma DashTick(m: Machine, env: Env)
    requires WellFormed(m) && m.current == Some(Dash)
    requires env.now < m.dashStartTime + env.stats.dashDuration
    ensures UpdateStatesSpec(m, Dash, env) ==
      m.(data := DashState.ApplyVelocity(m.data, m.dashDirection, env.stats),
         trace := m.trace + [Updated(Dash)])
  {
    DashState.EndsAfterDuration(DashState.ApplyVelocity(m.data, m.dashDirection, env.stats),
                                env.now, m.dashStartTime, env.stats);
  }

  /**
   * Over any run of ticks that all come before the end of the dash, Dash
   * stays the current state, keeps its start time and direction, and the
   * velocity is (direction * DashPower, 0) after every tick.
   */
  lemma {:induction false} DashLastsItsDuration(m: Machine, envs: seq<Env>)
    requires WellFormed(m) && m.current == Some(Dash)
    requires forall i :: 0 <= i < |envs| ==> envs[i].now < m.dashStartTime + envs[i].stats.dashDuration
    ensures var r := Ticks(m, envs);
      && r.current == Some(Dash)
      && r.dashStartTime == m.dashStartTime && r.dashDirection == m.dashDirection
      && r.sub == m.sub && r.sup == m.sup
      && |r.trace| == |m.trace| + |envs|
      && (|envs| > 0 ==> r.data.frameVelocity == Vec2(m.dashDirection * envs[|envs| - 1].stats.dashPower, 0.0))
    decreases |envs|
  {
    if |envs| > 0 {
      DashTick(m, envs[0]);
      var m1 := UpdateStatesSpec(m, Dash, envs[0]);
      assert Ticks(m, envs) == Ticks(m1, envs[1..]);
      DashLastsItsDuration(m1, envs[1..]);
      if |envs| > 1 {
        assert envs[1..][|envs[1..]| - 1] == envs[|envs| - 1];
      }
    }
  }

  /**
   * The update follows the sub-state link of the state it started from,
   * even when that state has just switched away: a Jump root that turns to
   * Fall (which links Run) still updates its own old leaf Idle, and when
   * Idle then switches to Run it rebinds the exited Jump rather than the
   * current Fall. Afterwards Fall's sub-state is Run while Run's super-state
   * is Jump, and Fall's own leaf was not updated in that tick.
   */
  lemma StaleLeafRebindsExitedRoot()
    ensures var d := HubData(
        Vec2(0.0, 0.0), false, false, false, true, false, false,
        PlayerInput.FrameInput(false, false, Vec2(1.0, 0.0)), 1.0, 100.0,
        false, true, true, false, 0.0, DefaultGravity, 0.0, 0.0, 0.0, WalkSpeed,
        NoCalls);
      var m := Machine(d, Some(Jump), NoLinks.Set(Jump, Some(Idle)), NoLinks.Set(Idle, Some(Jump)), 0.0, 1.0, []);
      var r := UpdateStatesSpec(m, Jump, Env(Defaults, 1.0, 0.02));
      && WellFormed(m) && m.sup.Get(m.sub.Get(Jump).value) == Some(Jump)
      && r.current == Some(Fall)
      && r.sub.Get(Fall) == Some(Run) && r.sup.Get(Run) == Some(Jump)
      && r.trace == [Updated(Jump), Exited(Jump), Entered(Fall), Updated(Idle), Exited(Idle), Entered(Run)]
  {
    var d := HubData(
      Vec2(0.0, 0.0), false, false, false, true, false, false,
      PlayerInput.FrameInput(false, false, Vec2(1.0, 0.0)), 1.0, 100.0,
      false, true, true, false, 0.0, DefaultGravity, 0.0, 0.0, 0.0, WalkSpeed,
      NoCalls);
    var m := Machine(d, Some(Jump), NoLinks.Set(Jump, Some(Idle)), NoLinks.Set(Idle, Some(Jump)), 0.0, 1.0, []);
    var env := Env(Defaults, 1.0, 0.02);
    var g := JumpState.HandleGravity(d, Defaults, 0.02);
    assert g.frameVelocity.y == -1.0;
    assert JumpState.Check(g).target == Some(Fall);
    var m1 := UpdateStateSpec(m, Jump, env);
    assert FallState.InitialSub(g) == Run;
    assert m1.current == Some(Fall);
    assert m1.sub == NoLinks.Set(Jump, Some(Idle)).Set(Fall, Some(Run));
    assert m1.sup == NoLinks.Set(Idle, Some(Jump)).Set(Run, Some(Fall));
    assert m1.trace == [Updated(Jump), Exited(Jump), Entered(Fall)];
    assert IdleState.Check(m1.data).target == Some(Run);
    var r := UpdateStateSpec(m1, Idle, env);
    assert r.sub.Get(Fall) == Some(Run);
    assert r.sup.Get(Run) == Some(Jump);
    UpdateStatesUnfolds(m, Jump, env);
  }
}
