/** What the game promises, proved about the functions of `Rules`. */
module Properties {
  import opened JavaInt
  import opened Rules

  // ---------------------------------------------------------------------------
  // One operation at a time
  // ---------------------------------------------------------------------------

  /** Every operation that sets a stat keeps a valid character valid. */
  lemma AttackKeepsValid(mode: State, st: Stats)
    requires Valid(st)
    ensures Valid(AttackOutcome(mode, st).stats)
  {
  }

  /**
   * An attack changes only strength: Normal adds 1 and PoweredUp adds 5, both
   * capped at 100, and Defeated sets it to 0.
   */
  lemma AttackByState(mode: State, st: Stats)
    requires Valid(st)
    ensures var r := AttackOutcome(mode, st).stats;
      r.hp == st.hp && r.state == st.state && r.strategy == st.strategy
      && r.strength == match mode
         case Normal => Min(st.strength + 1, MaxStrength)
         case PoweredUp => Min(st.strength + 5, MaxStrength)
         case Defeated => 0
  {
  }

  /** Outside the Defeated state an attack never lowers strength. */
  lemma AttackNeverWeakens(mode: State, st: Stats)
    requires Valid(st) && mode != Defeated
    ensures st.strength <= AttackOutcome(mode, st).stats.strength <= MaxStrength
  {
  }

  /**
   * A fight changes only hp: Melee takes 10, Ranged 5, Magic 15, with no lower
   * bound, as long as Java's subtraction does not pass `Integer.MIN_VALUE`.
   */
  lemma FightByStrategy(style: Strategy, st: Stats)
    ensures var r := FightOutcome(style, st).stats;
      r.strength == st.strength && r.state == st.state && r.strategy == st.strategy
      && match style
         case Melee => st.hp >= MinValue + 10 ==> r.hp == Min(st.hp - 10, MaxHp)
         case Ranged => st.hp >= MinValue + 5 ==> r.hp == Min(st.hp - 5, MaxHp)
         case Magic => st.hp >= MinValue + 15 ==> r.hp == Min(st.hp - 15, MaxHp)
  {
  }

  /**
   * When Java's subtraction does pass `Integer.MIN_VALUE`, a fight wraps hp
   * around to a large positive value, and `setHp` then caps it at 100.
   */
  lemma FightWrapsAround(style: Strategy, st: Stats)
    ensures var r := FightOutcome(style, st).stats;
      match style
      case Melee => st.hp < MinValue + 10 ==> r.hp == MaxHp
      case Ranged => st.hp < MinValue + 5 ==> r.hp == MaxHp
      case Magic => st.hp < MinValue + 15 ==> r.hp == MaxHp
  {
  }

  /** hp has no lower bound: a melee fight at hp 5 leaves hp -5. */
  lemma FightCanMakeHpNegative()
    ensures FightOutcome(Melee, Initial.(hp := 5)).stats.hp == -5
  {
  }

  /**
   * The attack action is exactly `character.attack()`, defending changes
   * nothing, and healing adds 20 to hp capped at 100.
   */
  lemma PerformByAction(action: Action, st: Stats)
    requires Valid(st)
    ensures var r := PerformOutcome(action, st);
      match action
      case AttackAction => r == AttackOutcome(st.state, st)
      case DefendAction => r.stats == st
      case HealAction =>
        r.stats == st.(hp := Min(st.hp + 20, MaxHp)) && r.stats.hp <= MaxHp
  {
  }

  /**
   * A boost adds 10 to strength capped at 100 and leaves hp alone; damage takes
   * 30 from hp (while Java's subtraction does not wrap) and leaves strength alone.
   */
  lemma EffectByKind(effect: Effect, st: Stats)
    requires Valid(st)
    ensures var r := EffectOutcome(effect, st).stats;
      r.state == st.state && r.strategy == st.strategy
      && match effect
         case Boost => r.strength == Min(st.strength + 10, MaxStrength) && r.hp == st.hp
         case Damage => r.strength == st.strength && (st.hp >= MinValue + 30 ==> r.hp == st.hp - 30)
  {
  }

  /** Of the two visits an effect receives, the one that does not belong to it does nothing. */
  lemma InapplicableVisitIsInert(st: Stats)
    ensures BoostOutcome(Damage, st) == Turn(st, [])
    ensures DamageOutcome(Boost, st) == Turn(st, [])
    ensures EffectOutcome(Boost, st) == BoostOutcome(Boost, st)
    ensures EffectOutcome(Damage, st) == DamageOutcome(Damage, st)
  {
  }

  /** Damage below `Integer.MIN_VALUE + 30` wraps around to a large positive value, which `setHp` caps at 100. */
  lemma DamageWrapsAround(st: Stats)
    requires st.hp < MinValue + 30
    ensures EffectOutcome(Damage, st).stats.hp == MaxHp
  {
  }

  // ---------------------------------------------------------------------------
  // The menus
  // ---------------------------------------------------------------------------

  /** The number of the "go back" entry of the submenu that top-level choice `top` opens. */
  function BackChoice(top: int): int
    requires 1 <= top <= 4
  {
    if top == 4 then 3 else 4
  }

  /**
   * A submenu changes the character only on one of its listed entries; "go
   * back" prints the return message and every other unlisted value the
   * invalid-option message.
   */
  lemma UnlistedChoiceChangesNothing(top: Int32, choice: Int32, st: Stats)
    requires 1 <= top <= 4
    requires choice < 1 || BackChoice(top) <= choice
    ensures MenuOutcome(top, choice, st).stats == st
    ensures MenuOutcome(top, choice, st).events
      == [if choice == BackChoice(top) then ReturningToMenu else InvalidOption]
  {
  }

  /** The item selected by entry `choice` (1 to 3) of a three-item submenu. */
  function Item<T>(choice: int, first: T, second: T, third: T): T
    requires 1 <= choice <= 3
  {
    if choice == 1 then first else if choice == 2 then second else third
  }

  /** The state submenu's entries 1 to 3 set exactly the state listed. */
  lemma StateMenuSelects(choice: Int32, st: Stats)
    requires 1 <= choice <= 3
    ensures var s := Item(choice, Normal, PoweredUp, Defeated);
      StateMenuOutcome(choice, st) == Turn(st.(state := s), [StateChanged(s)])
  {
  }

  /** The strategy submenu's entries 1 to 3 set exactly the strategy listed. */
  lemma StrategyMenuSelects(choice: Int32, st: Stats)
    requires 1 <= choice <= 3
    ensures var s := Item(choice, Melee, Ranged, Magic);
      StrategyMenuOutcome(choice, st) == Turn(st.(strategy := s), [StrategyChanged(s)])
  {
  }

  /**
   * Each listed entry of each submenu runs the operation it names: states and
   * strategies in menu order, attack, defend and heal, then boost and damage.
   */
  lemma MenuSelects(top: Int32, choice: Int32, st: Stats)
    requires 1 <= top <= 4
    ensures top == 1 && 1 <= choice <= 3 ==>
      var s := Item(choice, Normal, PoweredUp, Defeated);
      MenuOutcome(top, choice, st) == Turn(st.(state := s), [StateChanged(s)])
    ensures top == 2 && 1 <= choice <= 3 ==>
      var s := Item(choice, Melee, Ranged, Magic);
      MenuOutcome(top, choice, st) == Turn(st.(strategy := s), [StrategyChanged(s)])
    ensures top == 3 && 1 <= choice <= 3 ==>
      MenuOutcome(top, choice, st) == ExecuteOutcome(Item(choice, AttackAction, DefendAction, HealAction), st)
    ensures top == 4 && 1 <= choice <= 2 ==>
      MenuOutcome(top, choice, st) == EffectOutcome(if choice == 1 then Boost else Damage, st)
  {
  }

  /** Executing any action keeps a valid character valid. */
  lemma ExecuteKeepsValid(action: Action, st: Stats)
    requires Valid(st)
    ensures Valid(ExecuteOutcome(action, st).stats)
  {
  }

  /** Applying any effect keeps a valid character valid. */
  lemma EffectKeepsValid(effect: Effect, st: Stats)
    requires Valid(st)
    ensures Valid(EffectOutcome(effect, st).stats)
  {
  }

  /** A submenu visit keeps a valid character valid. */
  lemma MenuKeepsValid(top: Int32, choice: Int32, st: Stats)
    requires 1 <= top <= 4 && Valid(st)
    ensures Valid(MenuOutcome(top, choice, st).stats)
  {
    if top == 3 && 1 <= choice <= 3 {
      ExecuteKeepsValid(Item(choice, AttackAction, DefendAction, HealAction), st);
    } else if top == 4 && 1 <= choice <= 2 {
      EffectKeepsValid(if choice == 1 then Boost else Damage, st);
    }
  }

  /** A top-level choice outside 1 to 5 prints the warning and goes round again with nothing changed. */
  lemma TopLevelInvalidChoice(st: Stats, choice: Int32, rest: seq<Int32>)
    requires choice < 1 || 5 < choice
    ensures Session(st, [choice] + rest)
      == Shift([Status(st), InvalidOption], 1, Session(st, rest))
  {
    assert ([choice] + rest)[1..] == rest;
  }

  /** Top-level choice 5 ends the session at once, with nothing changed. */
  lemma TopLevelExit(st: Stats, rest: seq<Int32>)
    ensures Session(st, [5] + rest) == RunResult(Exited, st, 1, [Status(st), Farewell])
  {
  }

  // ---------------------------------------------------------------------------
  // Whole sessions
  // ---------------------------------------------------------------------------

  /** However the user plays, a valid character stays valid: hp at most 100, strength in 0..100. */
  lemma {:induction false} SessionKeepsValid(st: Stats, inputs: seq<Int32>)
    requires Valid(st)
    ensures Valid(Session(st, inputs).final)
    decreases |inputs|
  {
    if |inputs| >= 2 && 1 <= inputs[0] <= 4 {
      MenuKeepsValid(inputs[0], inputs[1], st);
      SessionKeepsValid(MenuOutcome(inputs[0], inputs[1], st).stats, inputs[2..]);
    } else if |inputs| >= 1 && inputs[0] != 5 && !(1 <= inputs[0] <= 4) {
      SessionKeepsValid(st, inputs[1..]);
    }
  }

  /** `st` with its strategy forgotten. */
  function WithoutStrategy(st: Stats): Stats {
    st.(strategy := Melee)
  }

  /** One submenu visit: what happens apart from the strategy does not depend on the strategy. */
  lemma MenuIgnoresStrategy(top: Int32, choice: Int32, a: Stats, b: Stats)
    requires 1 <= top <= 4 && WithoutStrategy(a) == WithoutStrategy(b)
    ensures WithoutStrategy(MenuOutcome(top, choice, a).stats)
      == WithoutStrategy(MenuOutcome(top, choice, b).stats)
  {
    if top == 1 {
      assert MenuOutcome(top, choice, a) == StateMenuOutcome(choice, a);
      assert MenuOutcome(top, choice, b) == StateMenuOutcome(choice, b);
    } else if top == 2 {
      assert MenuOutcome(top, choice, a) == StrategyMenuOutcome(choice, a);
      assert MenuOutcome(top, choice, b) == StrategyMenuOutcome(choice, b);
    } else if top == 3 {
      assert MenuOutcome(top, choice, a) == ActionMenuOutcome(choice, a);
      assert MenuOutcome(top, choice, b) == ActionMenuOutcome(choice, b);
    } else {
      assert MenuOutcome(top, choice, a) == EffectMenuOutcome(choice, a);
      assert MenuOutcome(top, choice, b) == EffectMenuOutcome(choice, b);
    }
  }

  /**
   * The menu never calls `fight()`, so the fighting strategy has no influence on
   * a session: how it ends, how many inputs it reads and the final hp, strength
   * and state are the same for any strategy.
   */
  lemma {:induction false} SessionIgnoresStrategy(a: Stats, b: Stats, inputs: seq<Int32>)
    requires WithoutStrategy(a) == WithoutStrategy(b)
    ensures Session(a, inputs).outcome == Session(b, inputs).outcome
    ensures Session(a, inputs).consumed == Session(b, inputs).consumed
    ensures WithoutStrategy(Session(a, inputs).final) == WithoutStrategy(Session(b, inputs).final)
    decreases |inputs|
  {
    if |inputs| >= 2 && 1 <= inputs[0] <= 4 {
      MenuIgnoresStrategy(inputs[0], inputs[1], a, b);
      SessionIgnoresStrategy(MenuOutcome(inputs[0], inputs[1], a).stats,
                             MenuOutcome(inputs[0], inputs[1], b).stats, inputs[2..]);
    } else if |inputs| >= 1 && inputs[0] != 5 && !(1 <= inputs[0] <= 4) {
      SessionIgnoresStrategy(a, b, inputs[1..]);
    }
  }

  /** Whether `inputs` holds a 5 anywhere. */
  predicate HasFive(inputs: seq<Int32>) {
    exists k :: 0 <= k < |inputs| && inputs[k] == 5
  }

  /** A session exits only on a 5; without one it reads every input and ends for want of input. */
  lemma SessionWithoutFive(st: Stats, inputs: seq<Int32>)
    requires !HasFive(inputs)
    ensures Session(st, inputs).outcome == InputExhausted
    ensures Session(st, inputs).consumed == |inputs|
  {
  }

  /**
   * A 5 typed in any submenu is an invalid option there, not an exit: the
   * warning is printed, nothing changes and the loop goes round again.
   */
  lemma FiveInSubmenuDoesNotExit(st: Stats, top: Int32, rest: seq<Int32>)
    requires 1 <= top <= 4
    ensures Session(st, [top, 5] + rest)
      == Shift([Status(st), InvalidOption], 2, Session(st, rest))
  {
    var inputs := [top, 5] + rest;
    assert inputs[0] == top && inputs[1] == 5 && inputs[2..] == rest;
    UnlistedChoiceChangesNothing(top, 5, st);
  }

  // ---------------------------------------------------------------------------
  // Scenarios, from a new character
  // ---------------------------------------------------------------------------

  /** Choosing PoweredUp and then attacking raises strength from 10 to 15. */
  lemma PoweredUpAttackScenario()
    ensures var r := Session(Initial, [1, 2, 3, 1, 5]);
      r.outcome == Exited && r.final == Initial.(state := PoweredUp, strength := 15)
  {
  }

  /** The Magic strategy's fight takes hp from 100 to 85. */
  lemma MagicFightScenario()
    ensures FightOutcome(Magic, Initial.(strategy := Magic)).stats.hp == 85
  {
  }

  /** A boost raises strength from 10 to 20 and leaves hp at 100. */
  lemma BoostScenario()
    ensures var r := Session(Initial, [4, 1, 5]);
      r.outcome == Exited && r.final == Initial.(strength := 20)
  {
  }

  /** Damage takes hp from 100 to 70 and leaves strength at 10. */
  lemma DamageScenario()
    ensures var r := Session(Initial, [4, 2, 5]);
      r.outcome == Exited && r.final == Initial.(hp := 70)
  {
  }

  /** A top-level 9 changes nothing and the menu comes round again. */
  lemma OutOfRangeScenario()
    ensures var r := Session(Initial, [9, 5]);
      r.outcome == Exited && r.final == Initial && r.consumed == 2
      && r.trace == [Status(Initial), InvalidOption, Status(Initial), Farewell]
  {
  }
}
