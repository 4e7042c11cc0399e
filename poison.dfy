/** The poison status effect: a non-instant effect whose per-tick hook deals
    one point of magic damage on every tenth world tick, sparing players in
    creative mode and entities whose health is already at 1 or below.

    The interval is computed from the amplifier with a halving formula and
    then clamped twice; the two clamps overlap, so the interval is 10 for
    every amplifier. The formula is modelled over exact reals: since the
    result no longer depends on the formula's value, float rounding of the
    power does not matter. */
module PoisonEffect {
  import opened Common

  datatype EffectType = Poison | Darkness

  datatype Gamemode = Survival | Creative | Adventure | Spectator

  datatype DamageCause = Magic

  /** The four components given to the effect's colour constructor, in the
      order the constructor call lists them. */
  datatype Color = Color(c0: int, c1: int, c2: int, c3: int)

  /** The state of an effect that the tick hook reads. */
  datatype Effect = Effect(effectType: EffectType, instant: bool, color: Color, amplifier: int)

  /** What the hook reads of the entity it ticks: whether it is a player,
      its game mode, and the current value of its health component. */
  datatype Entity = Entity(isPlayer: bool, gamemode: Gamemode, health: real)

  /** One call of the entity's `applyDamage(amount, cause)`. */
  datatype Damage = Damage(amount: int, cause: DamageCause)

  /** A poison effect with the given amplifier, as its field initialisers
      set it up. */
  function NewPoison(amplifier: int): (e: Effect)
    ensures e.effectType == Poison && !e.instant && e.amplifier == amplifier
  {
    Effect(Poison, false, Color(255, 78, 147, 49), amplifier)
  }

  /** `0.5` raised to an integer power `n`, exactly. */
  function HalfPower(n: int): (r: real)
    ensures r > 0.0
    decreases if n < 0 then -n else n
  {
    if n == 0 then 1.0
    else if n > 0 then 0.5 * HalfPower(n - 1)
    else 2.0 * HalfPower(n + 1)
  }

  /** Each further power of one half is half the previous one, on both
      sides of zero. */
  lemma HalfPowerHalves(n: int)
    ensures HalfPower(n + 1) == HalfPower(n) / 2.0
  {
    if n < 0 {
      assert HalfPower(n) == 2.0 * HalfPower(n + 1);
    }
  }

  /** The unclamped interval `25 * 0.5^(amplifier - 1)`: 25 at amplifier 1,
      halving with every further level. */
  function HalvingInterval(amplifier: int): real {
    25.0 * HalfPower(amplifier - 1)
  }

  function MaxReal(a: real, b: real): real { if a >= b then a else b }
  function MinInt(a: int, b: int): int { if a <= b then a else b }

  /** The damage interval as the hook computes it:
      `min(floor(max(25 * 0.5^(amplifier - 1), 12)), 10)`. The inner `max`
      makes the floor at least 12, so the outer `min` always picks 10. */
  function TickInterval(amplifier: int): (r: int)
    ensures r == 10
  {
    MinInt(MaxReal(HalvingInterval(amplifier), 12.0).Floor, 10)
  }

  /** JavaScript's `%` on numbers: the remainder takes the sign of the
      dividend (truncated division), where Dafny's `%` is never negative. */
  function JsRemainder(a: int, b: int): int
    requires b > 0
  {
    if a >= 0 then a % b else -((-a) % b)
  }

  /** The effect's tick hook: `None` when it returns before damaging,
      otherwise the one `applyDamage` call it makes. */
  function OnTick(effect: Effect, currentTick: int, entity: Entity): (r: Option<Damage>)
    ensures r.Some? <==>
      currentTick % 10 == 0
      && !(entity.isPlayer && entity.gamemode == Creative)
      && entity.health > 1.0
    ensures r.Some? ==> r.value == Damage(1, Magic)
  {
    var interval := TickInterval(effect.amplifier);
    if JsRemainder(currentTick, interval) != 0 then None
    else if entity.isPlayer && entity.gamemode == Creative then None
    else if entity.health <= 1.0 then None
    else Some(Damage(1, Magic))
  }

  /** The entity after the hook's outcome has been applied to its health. */
  function AfterTick(effect: Effect, currentTick: int, entity: Entity): Entity {
    match OnTick(effect, currentTick, entity)
    case None => entity
    case Some(d) => entity.(health := entity.health - d.amount as real)
  }

  /** The entity after the hook has run on each of the given ticks, in order. */
  function AfterTicks(effect: Effect, ticks: seq<int>, entity: Entity): Entity
    decreases |ticks|
  {
    if ticks == [] then entity
    else AfterTicks(effect, ticks[1..], AfterTick(effect, ticks[0], entity))
  }

  /** Example amplifiers only: the halving formula starts at 25 ticks for
      amplifier 1 and reaches 6.25 at amplifier 3; the clamps discard both
      values. The result for every amplifier is `TickInterval`'s contract. */
  lemma HalvingIntervalValues()
    ensures HalvingInterval(1) == 25.0 && HalvingInterval(2) == 12.5 && HalvingInterval(3) == 6.25
    ensures TickInterval(1) == TickInterval(3) == 10
  {
    assert HalfPower(1) == 0.5;
    assert HalfPower(2) == 0.25;
  }

  /** Poison alone never kills: an entity with positive health keeps positive
      health however many ticks pass. */
  lemma {:induction false} PoisonNeverKills(effect: Effect, ticks: seq<int>, entity: Entity)
    requires entity.health > 0.0
    ensures AfterTicks(effect, ticks, entity).health > 0.0
    decreases |ticks|
  {
    if ticks != [] {
      PoisonNeverKills(effect, ticks[1..], AfterTick(effect, ticks[0], entity));
    }
  }

  /** Whole-number health never drops below 1 through poison alone, and it
      stays a whole number. */
  lemma {:induction false} PoisonKeepsWholeHealthAtLeastOne(effect: Effect, ticks: seq<int>, entity: Entity)
    requires entity.health >= 1.0 && entity.health == entity.health.Floor as real
    ensures var after := AfterTicks(effect, ticks, entity);
      after.health >= 1.0 && after.health == after.health.Floor as real
    decreases |ticks|
  {
    if ticks != [] {
      var next := AfterTick(effect, ticks[0], entity);
      assert next.health >= 1.0 && next.health == next.health.Floor as real by {
        if OnTick(effect, ticks[0], entity).Some? {
          assert next.health == (entity.health.Floor - 1) as real;
        }
      }
      PoisonKeepsWholeHealthAtLeastOne(effect, ticks[1..], next);
    }
  }

  /** A fractional health above 1 can be taken below 1: 1.5 becomes 0.5 on a
      damaging tick. */
  lemma FractionalHealthCanDropBelowOne(effect: Effect)
    ensures AfterTick(effect, 0, Entity(false, Survival, 1.5)).health == 0.5
  {
  }
}
