/**
 * The game's values and what each operation does to them, as pure functions.
 * The imperative modules are proved against these functions and the lemmas in
 * `Properties` are stated about them.
 */
module Rules {
  import opened JavaInt

  const MaxHp: Int32 := 100
  const MaxStrength: Int32 := 100

  /** The attack behaviour (State pattern). */
  datatype State = Normal | PoweredUp | Defeated

  /** The fighting behaviour (Strategy pattern). */
  datatype Strategy = Melee | Ranged | Magic

  /** The templated actions (Template Method pattern). */
  datatype Action = AttackAction | DefendAction | HealAction

  /** The effects (Visitor pattern). */
  datatype Effect = Boost | Damage

  /** Everything a character holds. */
  datatype Stats = Stats(hp: Int32, strength: Int32, state: State, strategy: Strategy)

  /** A newly constructed character. */
  const Initial: Stats := Stats(100, 10, Normal, Melee)

  /** What every reachable character satisfies: hp is capped above only, strength lies in 0..100. */
  predicate Valid(st: Stats) {
    st.hp <= MaxHp && 0 <= st.strength <= MaxStrength
  }

  /** Console output, one event per message the program prints. */
  datatype Event =
    | Welcome
    | Farewell
    | Status(shown: Stats)
    | InvalidOption
    | ReturningToMenu
    | StateChanged(newState: State)
    | StrategyChanged(newStrategy: Strategy)
    | Attacked(mode: State)
    | Fought(style: Strategy)
    | ActionStarted
    | ActionCompleted
    | Defended
    | Healed
    | Strengthened
    | TookDamage

  /** The character after one operation, and what the operation printed. */
  datatype Turn = Turn(stats: Stats, events: seq<Event>)

  /** `setHp(v)`: hp becomes `v` when that is at most the maximum, the maximum otherwise. */
  function WithHp(st: Stats, v: Int32): (r: Stats)
    ensures v <= MaxHp ==> r.hp == v
    ensures v > MaxHp ==> r.hp == MaxHp
    ensures r.(hp := st.hp) == st
  {
    st.(hp := Min(v, MaxHp))
  }

  /** `setStrength(v)`: strength becomes `v` when that is at most the maximum, the maximum otherwise. */
  function WithStrength(st: Stats, v: Int32): (r: Stats)
    ensures v <= MaxStrength ==> r.strength == v
    ensures v > MaxStrength ==> r.strength == MaxStrength
    ensures r.(strength := st.strength) == st
  {
    st.(strength := Min(v, MaxStrength))
  }

  /** `mode.attack(character)`: only strength changes. */
  function AttackOutcome(mode: State, st: Stats): (r: Turn)
    ensures r.stats.(strength := st.strength) == st
    ensures r.events == [Attacked(mode)]
  {
    match mode
    case Normal => Turn(WithStrength(st, Add(st.strength, 1)), [Attacked(Normal)])
    case PoweredUp => Turn(WithStrength(st, Add(st.strength, 5)), [Attacked(PoweredUp)])
    case Defeated => Turn(WithStrength(st, 0), [Attacked(Defeated)])
  }

  /** `style.fight(character)`: only hp changes. */
  function FightOutcome(style: Strategy, st: Stats): (r: Turn)
    ensures r.stats.(hp := st.hp) == st
    ensures r.events == [Fought(style)]
  {
    match style
    case Melee => Turn(WithHp(st, Sub(st.hp, 10)), [Fought(Melee)])
    case Ranged => Turn(WithHp(st, Sub(st.hp, 5)), [Fought(Ranged)])
    case Magic => Turn(WithHp(st, Sub(st.hp, 15)), [Fought(Magic)])
  }

  /** `action.performAction(character)`: no action changes the state or the strategy. */
  function PerformOutcome(action: Action, st: Stats): (r: Turn)
    ensures r.stats.state == st.state && r.stats.strategy == st.strategy
  {
    match action
    case AttackAction => AttackOutcome(st.state, st)
    case DefendAction => Turn(st, [Defended])
    case HealAction => Turn(WithHp(st, Add(st.hp, 20)), [Healed])
  }

  /**
   * `action.executeAction(character)`: the start message first, the end message
   * last, exactly the action's own messages between them, and the action's effect.
   */
  function ExecuteOutcome(action: Action, st: Stats): (r: Turn)
    ensures var p := PerformOutcome(action, st);
      r.stats == p.stats && |r.events| == |p.events| + 2
      && r.events[0] == ActionStarted && r.events[|r.events| - 1] == ActionCompleted
      && r.events[1..|r.events| - 1] == p.events
  {
    var t := PerformOutcome(action, st);
    Turn(t.stats, [ActionStarted] + t.events + [ActionCompleted])
  }

  /** `effect.applyBoost(character)`: only a boost acts. */
  function BoostOutcome(effect: Effect, st: Stats): (r: Turn)
    ensures r.stats.(strength := st.strength) == st
  {
    match effect
    case Boost => Turn(WithStrength(st, Add(st.strength, 10)), [Strengthened])
    case Damage => Turn(st, [])
  }

  /** `effect.applyDamage(character)`: only damage acts. */
  function DamageOutcome(effect: Effect, st: Stats): (r: Turn)
    ensures r.stats.(hp := st.hp) == st
  {
    match effect
    case Damage => Turn(WithHp(st, Sub(st.hp, 30)), [TookDamage])
    case Boost => Turn(st, [])
  }

  /**
   * Applying an effect from the menu: `applyBoost`, then `applyDamage`, on the
   * same effect. A boost touches strength only and damage hp only, each with
   * its one message.
   */
  function EffectOutcome(effect: Effect, st: Stats): (r: Turn)
    ensures r.stats.state == st.state && r.stats.strategy == st.strategy
    ensures effect == Boost ==> r.stats.hp == st.hp && r.events == [Strengthened]
    ensures effect == Damage ==> r.stats.strength == st.strength && r.events == [TookDamage]
  {
    var b := BoostOutcome(effect, st);
    var d := DamageOutcome(effect, b.stats);
    Turn(d.stats, b.events + d.events)
  }

  /** The "change character state" submenu, given the choice read there. */
  function StateMenuOutcome(choice: Int32, st: Stats): (r: Turn)
    ensures r.stats.(state := st.state) == st
  {
    match choice
    case 1 => Turn(st.(state := Normal), [StateChanged(Normal)])
    case 2 => Turn(st.(state := PoweredUp), [StateChanged(PoweredUp)])
    case 3 => Turn(st.(state := Defeated), [StateChanged(Defeated)])
    case 4 => Turn(st, [ReturningToMenu])
    case _ => Turn(st, [InvalidOption])
  }

  /** The "select fighting strategy" submenu, given the choice read there. */
  function StrategyMenuOutcome(choice: Int32, st: Stats): (r: Turn)
    ensures r.stats.(strategy := st.strategy) == st
  {
    match choice
    case 1 => Turn(st.(strategy := Melee), [StrategyChanged(Melee)])
    case 2 => Turn(st.(strategy := Ranged), [StrategyChanged(Ranged)])
    case 3 => Turn(st.(strategy := Magic), [StrategyChanged(Magic)])
    case 4 => Turn(st, [ReturningToMenu])
    case _ => Turn(st, [InvalidOption])
  }

  /**
   * The "perform game action" submenu, given the choice read there: entries 1 to
   * 3 execute an action, which never changes the strategy or the state; every
   * other choice changes nothing.
   */
  function ActionMenuOutcome(choice: Int32, st: Stats): (r: Turn)
    ensures r.stats.state == st.state && r.stats.strategy == st.strategy
    ensures 1 <= choice <= 3 ==> |r.events| >= 2 && r.events[0] == ActionStarted
    ensures !(1 <= choice <= 3) ==> r.stats == st
  {
    match choice
    case 1 => ExecuteOutcome(AttackAction, st)
    case 2 => ExecuteOutcome(DefendAction, st)
    case 3 => ExecuteOutcome(HealAction, st)
    case 4 => Turn(st, [ReturningToMenu])
    case _ => Turn(st, [InvalidOption])
  }

  /**
   * The "apply effect" submenu, given the choice read there: entries 1 and 2
   * apply an effect, which never changes the strategy or the state; every other
   * choice changes nothing.
   */
  function EffectMenuOutcome(choice: Int32, st: Stats): (r: Turn)
    ensures r.stats.state == st.state && r.stats.strategy == st.strategy
    ensures !(1 <= choice <= 2) ==> r.stats == st
  {
    match choice
    case 1 => EffectOutcome(Boost, st)
    case 2 => EffectOutcome(Damage, st)
    case 3 => Turn(st, [ReturningToMenu])
    case _ => Turn(st, [InvalidOption])
  }

  /**
   * The submenu that top-level choice `top` (1 to 4) opens: only the state
   * submenu changes the state and only the strategy submenu the strategy.
   */
  function MenuOutcome(top: Int32, choice: Int32, st: Stats): (r: Turn)
    requires 1 <= top <= 4
    ensures top != 1 ==> r.stats.state == st.state
    ensures top != 2 ==> r.stats.strategy == st.strategy
    ensures top <= 2 ==> r.stats.hp == st.hp && r.stats.strength == st.strength
  {
    match top
    case 1 => StateMenuOutcome(choice, st)
    case 2 => StrategyMenuOutcome(choice, st)
    case 3 => ActionMenuOutcome(choice, st)
    case 4 => EffectMenuOutcome(choice, st)
  }

  /** How a session ends: by choice 5, or because the input ran out (`nextInt` throws). */
  datatype Outcome = Exited | InputExhausted

  /** The end of a session: how it ended, the character then, the inputs read and the messages printed. */
  datatype RunResult = RunResult(outcome: Outcome, final: Stats, consumed: nat, trace: seq<Event>)

  /** `r` preceded by `n` inputs already read and the messages `prefix` already printed. */
  function Shift(prefix: seq<Event>, n: nat, r: RunResult): RunResult {
    r.(consumed := n + r.consumed, trace := prefix + r.trace)
  }

  /** Two `Shift`s in a row are one. */
  lemma ShiftShift(a: seq<Event>, n: nat, b: seq<Event>, m: nat, r: RunResult)
    ensures Shift(a, n, Shift(b, m, r)) == Shift(a + b, n + m, r)
  {
  }

  /**
   * The menu loop of `Game.main` from character `st` over the integers the user
   * types: each round prints the status, reads a top-level choice and, for 1 to 4,
   * the submenu's choice.
   */
  function Session(st: Stats, inputs: seq<Int32>): (r: RunResult)
    ensures r.consumed <= |inputs|
    ensures r.outcome == InputExhausted ==> r.consumed == |inputs|
    ensures r.outcome == Exited ==> 1 <= r.consumed && inputs[r.consumed - 1] == 5
    decreases |inputs|
  {
    if |inputs| == 0 then
      RunResult(InputExhausted, st, 0, [Status(st)])
    else if inputs[0] == 5 then
      RunResult(Exited, st, 1, [Status(st), Farewell])
    else if 1 <= inputs[0] <= 4 then
      if |inputs| == 1 then
        RunResult(InputExhausted, st, 1, [Status(st)])
      else
        var t := MenuOutcome(inputs[0], inputs[1], st);
        Shift([Status(st)] + t.events, 2, Session(t.stats, inputs[2..]))
    else
      Shift([Status(st), InvalidOption], 1, Session(st, inputs[1..]))
  }
}
