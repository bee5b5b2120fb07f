/**
 * The `Character` class and the attack (State pattern) and fight (Strategy
 * pattern) behaviours that mutate it. Each method is proved against the
 * matching function of `Rules`.
 */
module Characters {
  import opened JavaInt
  import opened Rules

  class Character {
    var currentState: State
    var currentStrategy: Strategy
    var hp: Int32
    var strength: Int32

    /** The character's fields as a value. */
    function View(): Stats
      reads this
    {
      Stats(hp, strength, currentState, currentStrategy)
    }

    /** A new character: hp 100, strength 10, state Normal, strategy Melee. */
    constructor ()
      ensures View() == Initial
      ensures Valid(View())
    {
      hp := 100;
      strength := 10;
      currentState := Normal;
      currentStrategy := Melee;
    }

    /** `setState`: replaces the attack behaviour and announces it. */
    method SetState(state: State) returns (events: seq<Event>)
      modifies this
      ensures View() == old(View()).(state := state)
      ensures events == [StateChanged(state)]
    {
      currentState := state;
      events := [StateChanged(state)];
    }

    /** `setStrategy`: replaces the fighting behaviour and announces it. */
    method SetStrategy(strategy: Strategy) returns (events: seq<Event>)
      modifies this
      ensures View() == old(View()).(strategy := strategy)
      ensures events == [StrategyChanged(strategy)]
    {
      currentStrategy := strategy;
      events := [StrategyChanged(strategy)];
    }

    /** `setHp`: stores `Math.min(v, 100)`; there is no lower bound. */
    method SetHp(v: Int32)
      modifies this
      ensures View() == WithHp(old(View()), v)
    {
      hp := Min(v, MaxHp);
    }

    /** `setStrength`: stores `Math.min(v, 100)`. */
    method SetStrength(v: Int32)
      modifies this
      ensures View() == WithStrength(old(View()), v)
    {
      strength := Min(v, MaxStrength);
    }

    /** `attack`: delegates to the current state. */
    method Attack() returns (events: seq<Event>)
      modifies this
      ensures Turn(View(), events) == AttackOutcome(old(currentState), old(View()))
    {
      events := StateAttack(currentState, this);
    }

    /** `fight`: delegates to the current strategy. */
    method Fight() returns (events: seq<Event>)
      modifies this
      ensures Turn(View(), events) == FightOutcome(old(currentStrategy), old(View()))
    {
      events := StrategyFight(currentStrategy, this);
    }
  }

  /** `NormalState`, `PoweredUpState` and `DefeatedState`'s `attack(character)`. */
  method StateAttack(mode: State, c: Character) returns (events: seq<Event>)
    modifies c
    ensures Turn(c.View(), events) == AttackOutcome(mode, old(c.View()))
  {
    events := [Attacked(mode)];
    match mode
    case Normal => c.SetStrength(Add(c.strength, 1));
    case PoweredUp => c.SetStrength(Add(c.strength, 5));
    case Defeated => c.SetStrength(0);
  }

  /** `MeleeStrategy`, `RangedStrategy` and `MagicStrategy`'s `fight(character)`. */
  method StrategyFight(style: Strategy, c: Character) returns (events: seq<Event>)
    modifies c
    ensures Turn(c.View(), events) == FightOutcome(style, old(c.View()))
  {
    events := [Fought(style)];
    match style
    case Melee => c.SetHp(Sub(c.hp, 10));
    case Ranged => c.SetHp(Sub(c.hp, 5));
    case Magic => c.SetHp(Sub(c.hp, 15));
  }
}
