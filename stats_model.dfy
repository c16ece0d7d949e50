/**
 * The health and stamina model: two values kept inside [0, max] by clamping
 * setters that notify their observers only on a change larger than a small
 * epsilon. The observers' payload is the value as a fraction of its maximum.
 */
module StatsModel {
  import opened UnityMath

  /** A setter notifies (and stores) only when the value moves by more than this. */
  const ChangeEpsilon: real := 0.001

  /** The smallest divisor the percentage queries use. */
  const MinDivisor: real := 0.0001

  /** The setter's guard: does clamping `value` move `current` by more than the epsilon? */
  predicate Notifies(current: real, value: real, max: real)
    requires max >= 0.0
  {
    Abs(current - Clamp(value, 0.0, max)) > ChangeEpsilon
  }

  /** The notification payload: `value / max(max, 0.0001)`. */
  function Percentage(value: real, max: real): (r: real)
    ensures max >= 0.0 && 0.0 <= value <= max ==> 0.0 <= r <= 1.0
    ensures max >= MinDivisor && value == max ==> r == 1.0
  {
    assert max >= 0.0 && 0.0 <= value <= max ==> 0.0 <= value / Max(max, MinDivisor) <= 1.0 by {
      if max >= 0.0 && 0.0 <= value <= max {
        DivisionBounds(value, Max(max, MinDivisor));
      }
    }
    value / Max(max, MinDivisor)
  }

  lemma DivisionBounds(n: real, d: real)
    requires d > 0.0 && 0.0 <= n <= d
    ensures 0.0 <= n / d <= 1.0
  {
    assert n / d * d == n;
  }

  /** The model's whole observable state, with the two notification logs. */
  datatype Stats = Stats(
    health: real,
    stamina: real,
    maxHealth: real,
    maxStamina: real,
    healthNotifications: seq<real>,
    staminaNotifications: seq<real>)

  /** Both maxima are non-negative (otherwise Math.Clamp throws in every setter). */
  predicate Wellformed(s: Stats)
  {
    s.maxHealth >= 0.0 && s.maxStamina >= 0.0
  }

  /** Both values inside their ranges and every payload sent so far in [0, 1]. */
  predicate InRange(s: Stats)
  {
    && Wellformed(s)
    && 0.0 <= s.health <= s.maxHealth
    && 0.0 <= s.stamina <= s.maxStamina
    && (forall i :: 0 <= i < |s.healthNotifications| ==> 0.0 <= s.healthNotifications[i] <= 1.0)
    && (forall i :: 0 <= i < |s.staminaNotifications| ==> 0.0 <= s.staminaNotifications[i] <= 1.0)
  }

  function SetHealthOn(s: Stats, value: real): Stats
    requires Wellformed(s)
  {
    if Notifies(s.health, value, s.maxHealth) then
      var h := Clamp(value, 0.0, s.maxHealth);
      s.(health := h, healthNotifications := s.healthNotifications + [Percentage(h, s.maxHealth)])
    else s
  }

  function SetStaminaOn(s: Stats, value: real): Stats
    requires Wellformed(s)
  {
    if Notifies(s.stamina, value, s.maxStamina) then
      var st := Clamp(value, 0.0, s.maxStamina);
      s.(stamina := st, staminaNotifications := s.staminaNotifications + [Percentage(st, s.maxStamina)])
    else s
  }

  /** The constructor: both values start at 0 and go through their setters. */
  function Create(initHealth: real, initStamina: real, maxH: real, maxS: real): Stats
    requires maxH >= 0.0 && maxS >= 0.0
  {
    SetStaminaOn(SetHealthOn(Stats(0.0, 0.0, maxH, maxS, [], []), initHealth), initStamina)
  }

  /** The public mutators, as values. */
  datatype StatsOp =
    | SetHealthTo(value: real)
    | SetStaminaTo(value: real)
    | TakeDamage(amount: real)
    | ConsumeStamina(amount: real)
    | AddStamina(amount: real)

  function Apply(s: Stats, op: StatsOp): Stats
    requires Wellformed(s)
  {
    match op
    case SetHealthTo(v) => SetHealthOn(s, v)
    case SetStaminaTo(v) => SetStaminaOn(s, v)
    case TakeDamage(a) => SetHealthOn(s, s.health - a)
    case ConsumeStamina(a) => SetStaminaOn(s, s.stamina - a)
    case AddStamina(a) => SetStaminaOn(s, s.stamina + a)
  }

  function ApplyAll(s: Stats, ops: seq<StatsOp>): Stats
    requires Wellformed(s)
    decreases |ops|
  {
    if ops == [] then s
    else
      ApplyKeepsWellformed(s, ops[0]);
      ApplyAll(Apply(s, ops[0]), ops[1..])
  }

  /** An operation never changes the maxima. */
  lemma ApplyKeepsWellformed(s: Stats, op: StatsOp)
    requires Wellformed(s)
    ensures Wellformed(Apply(s, op))
  {
  }

  /** A setter writes exactly one of the two values and leaves the other, and both maxima, alone. */
  lemma SettersAreIndependent(s: Stats, v: real)
    requires Wellformed(s)
    ensures SetHealthOn(s, v).stamina == s.stamina && SetHealthOn(s, v).staminaNotifications == s.staminaNotifications
    ensures SetStaminaOn(s, v).health == s.health && SetStaminaOn(s, v).healthNotifications == s.healthNotifications
    ensures SetHealthOn(s, v).maxHealth == s.maxHealth && SetStaminaOn(s, v).maxStamina == s.maxStamina
  {
  }

  /**
   * A setter changes its value, and notifies exactly once, when the clamped
   * request is more than the epsilon away from the current value; otherwise
   * it changes nothing at all.
   */
  lemma SetterNotifiesOnlyOnChange(s: Stats, v: real)
    requires Wellformed(s)
    ensures var r := SetHealthOn(s, v);
      if Notifies(s.health, v, s.maxHealth) then
        r.health == Clamp(v, 0.0, s.maxHealth) && r.health != s.health
        && r.healthNotifications == s.healthNotifications + [Percentage(r.health, s.maxHealth)]
      else r == s
    ensures var r := SetStaminaOn(s, v);
      if Notifies(s.stamina, v, s.maxStamina) then
        r.stamina == Clamp(v, 0.0, s.maxStamina) && r.stamina != s.stamina
        && r.staminaNotifications == s.staminaNotifications + [Percentage(r.stamina, s.maxStamina)]
      else r == s
  {
  }

  /** One operation keeps both values in range and every payload in [0, 1]. */
  lemma ApplyKeepsRange(s: Stats, op: StatsOp)
    requires InRange(s)
    ensures InRange(Apply(s, op))
    ensures Apply(s, op).maxHealth == s.maxHealth && Apply(s, op).maxStamina == s.maxStamina
  {
    var r := Apply(s, op);
    assert forall i :: 0 <= i < |r.healthNotifications| ==>
      i < |s.healthNotifications| || r.healthNotifications[i] == Percentage(r.health, r.maxHealth);
    assert forall i :: 0 <= i < |r.staminaNotifications| ==>
      i < |s.staminaNotifications| || r.staminaNotifications[i] == Percentage(r.stamina, r.maxStamina);
  }

  /** Any sequence of operations keeps both values in [0, max]. */
  lemma {:induction false} ApplyAllKeepsRange(s: Stats, ops: seq<StatsOp>)
    requires InRange(s)
    ensures InRange(ApplyAll(s, ops))
    ensures ApplyAll(s, ops).maxHealth == s.maxHealth && ApplyAll(s, ops).maxStamina == s.maxStamina
    decreases |ops|
  {
    if ops != [] {
      ApplyKeepsRange(s, ops[0]);
      ApplyAllKeepsRange(Apply(s, ops[0]), ops[1..]);
    }
  }

  /** The constructor leaves both values in range, whatever the initial values are. */
  lemma CreateInRange(initHealth: real, initStamina: real, maxH: real, maxS: real)
    requires maxH >= 0.0 && maxS >= 0.0
    ensures InRange(Create(initHealth, initStamina, maxH, maxS))
  {
    var s0 := Stats(0.0, 0.0, maxH, maxS, [], []);
    ApplyKeepsRange(s0, SetHealthTo(initHealth));
    ApplyKeepsRange(SetHealthOn(s0, initHealth), SetStaminaTo(initStamina));
  }

  /**
   * Having enough stamina for a non-negative cost means consuming it is not
   * clamped: stamina drops by exactly the cost (a cost within the epsilon
   * changes nothing).
   */
  lemma EnoughStaminaConsumesExactly(s: Stats, cost: real)
    requires InRange(s) && 0.0 <= cost <= s.stamina
    ensures var r := Apply(s, StatsOp.ConsumeStamina(cost));
      if cost > ChangeEpsilon then r.stamina == s.stamina - cost
      else r.stamina == s.stamina
  {
  }

  /**
   * Health 100 of 100 and a hit of 150: health 0. The log holds 1 from the
   * constructor's SetHealth call, which no observer receives, then 0.
   */
  lemma OverkillClampsToZero()
    ensures var s := Apply(Create(100.0, 100.0, 100.0, 100.0), StatsOp.TakeDamage(150.0));
      s.health == 0.0 && s.healthNotifications == [1.0, 0.0]
  {
  }

  /**
   * The model object. The two logs record the payload of every
   * `OnHealthChanged` / `OnStaminaChanged` invocation, subscribed or not; the
   * two made by the constructor reach no subscriber.
   */
  class CharacterStatsModel {
    var health: real
    var stamina: real
    const maxHealth: real
    const maxStamina: real
    var healthNotifications: seq<real>
    var staminaNotifications: seq<real>

    function Value(): Stats
      reads this
    {
      Stats(health, stamina, maxHealth, maxStamina, healthNotifications, staminaNotifications)
    }

    /** The values stay in range between calls. */
    ghost predicate Valid()
      reads this
    {
      InRange(Value())
    }

    constructor (initHealth: real, initStamina: real, maxH: real, maxS: real)
      requires maxH >= 0.0 && maxS >= 0.0
      ensures Value() == Create(initHealth, initStamina, maxH, maxS)
      ensures Valid()
    {
      maxHealth, maxStamina := maxH, maxS;
      health, stamina := 0.0, 0.0;
      healthNotifications, staminaNotifications := [], [];
      new;
      SetHealth(initHealth);
      SetStamina(initStamina);
      CreateInRange(initHealth, initStamina, maxH, maxS);
    }

    function GetHealthPercentage(): (r: real)
      reads this
      ensures Valid() ==> 0.0 <= r <= 1.0
      ensures r == Percentage(health, maxHealth)
    {
      Percentage(health, maxHealth)
    }

    function GetStaminaPercentage(): (r: real)
      reads this
      ensures Valid() ==> 0.0 <= r <= 1.0
      ensures r == Percentage(stamina, maxStamina)
    {
      Percentage(stamina, maxStamina)
    }

    /** True once stamina has reached its maximum (in range, exactly at it). */
    function IsStaminaFull(): (r: bool)
      reads this
      ensures Valid() ==> (r <==> stamina == maxStamina)
    {
      stamina >= maxStamina
    }

    /** The gate the abilities use: at least `cost` stamina left. */
    function HasEnoughStamina(cost: real): (r: bool)
      reads this
      ensures r <==> cost <= stamina
    {
      stamina >= cost
    }

    method SetHealth(value: real)
      requires Wellformed(Value())
      modifies this
      ensures Value() == SetHealthOn(old(Value()), value)
      ensures old(Valid()) ==> Valid()
    {
      var clamped := Clamp(value, 0.0, maxHealth);
      if Abs(health - clamped) > ChangeEpsilon {
        health := clamped;
        healthNotifications := healthNotifications + [Percentage(health, maxHealth)];
      }
      if old(Valid()) { ApplyKeepsRange(old(Value()), StatsOp.SetHealthTo(value)); }
    }

    method SetStamina(value: real)
      requires Wellformed(Value())
      modifies this
      ensures Value() == SetStaminaOn(old(Value()), value)
      ensures old(Valid()) ==> Valid()
    {
      var clamped := Clamp(value, 0.0, maxStamina);
      if Abs(stamina - clamped) > ChangeEpsilon {
        stamina := clamped;
        staminaNotifications := staminaNotifications + [Percentage(stamina, maxStamina)];
      }
      if old(Valid()) { ApplyKeepsRange(old(Value()), StatsOp.SetStaminaTo(value)); }
    }

    method TakeDamage(amount: real)
      requires Wellformed(Value())
      modifies this
      ensures Value() == Apply(old(Value()), StatsOp.TakeDamage(amount))
      ensures old(Valid()) ==> Valid()
    {
      SetHealth(health - amount);
    }

    method ConsumeStamina(amount: real)
      requires Wellformed(Value())
      modifies this
      ensures Value() == Apply(old(Value()), StatsOp.ConsumeStamina(amount))
      ensures old(Valid()) ==> Valid()
    {
      SetStamina(stamina - amount);
    }

    method AddStamina(amount: real)
      requires Wellformed(Value())
      modifies this
      ensures Value() == Apply(old(Value()), StatsOp.AddStamina(amount))
      ensures old(Valid()) ==> Valid()
    {
      SetStamina(stamina + amount);
    }
  }
}
