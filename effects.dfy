/** The `EffectVisitor` pair of effects (Visitor pattern). */
module Effects {
  import opened JavaInt
  import opened Rules
  import opened Characters

  /** `BoostEffect.applyBoost` raises strength by 10; `DamageEffect.applyBoost` does nothing. */
  method ApplyBoost(effect: Effect, c: Character) returns (events: seq<Event>)
    modifies c
    ensures Turn(c.View(), events) == BoostOutcome(effect, old(c.View()))
  {
    match effect
    case Boost =>
      events := [Strengthened];
      c.SetStrength(Add(c.strength, 10));
    case Damage =>
      events := [];
  }

  /** `DamageEffect.applyDamage` lowers hp by 30; `BoostEffect.applyDamage` does nothing. */
  method ApplyDamage(effect: Effect, c: Character) returns (events: seq<Event>)
    modifies c
    ensures Turn(c.View(), events) == DamageOutcome(effect, old(c.View()))
  {
    match effect
    case Damage =>
      events := [TookDamage];
      c.SetHp(Sub(c.hp, 30));
    case Boost =>
      events := [];
  }
}
