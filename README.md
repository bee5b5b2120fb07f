# A verified model of the character console game

The program is a menu-driven console game. It keeps one `Character` with two
Java `int` stats, `hp` and `strength`. Each stat's setter caps it above at 100.
The character also holds an attack behaviour, its *state* (Normal, PoweredUp or
Defeated: the State pattern), and a fighting behaviour, its *strategy* (Melee,
Ranged or Magic: the Strategy pattern). The menu changes the state or the
strategy, runs a templated action (Attack, Defend or Heal: Template Method), or
applies an effect (Boost or Damage: a two-method visitor). It stops on choice 5.

The model is written in the program's own form:

- `JavaInt` (`java_int.dfy`): Java's `int`, with two's-complement
  wrap-around on `+` and `-` written out, and `Math.min`.
- `Rules` (`rules.dfy`): the closed variant sets as datatypes. It also holds
  the character's fields as a `Stats` value, and what every operation does to
  them as pure functions. `Session` is the menu loop over the sequence of
  integers the user types.
- `Characters` (`characters.dfy`): `Character` as a class whose fields the
  setters update in place. It also holds the per-state `attack` and
  per-strategy `fight` methods that mutate a character passed to them.
- `Actions` (`actions.dfy`) is `executeAction` and the three
  `performAction`s. `Effects` (`effects.dfy`) is `applyBoost` and
  `applyDamage`.
- `Game` (`game.dfy`): the four submenus, and `main`'s `while (!exit)` loop
  as `Play`, which consumes a `seq<Int32>` (the `int`s `nextInt` returns)
  instead of a `Scanner`.
- `Properties` (`properties.dfy`): lemmas about the functions of `Rules`.

Every method is proved against its function in `Rules`. Its `ensures` states
the whole new character (`c.View()`) and the messages it printed, given the
old character. Printed text is modelled as a trace of abstract `Event`s: no
strings, no emoji.

Things the model makes explicit:

- hp has no lower bound: `setHp` caps only above, so fights and Damage can
  make it negative.
- Java's `int` subtraction wraps around. Below `Integer.MIN_VALUE + 30`,
  Damage wraps hp to a large positive number, which `setHp` then caps at
  100. `DamageWrapsAround` proves this, and `FightWrapsAround` proves the same
  for each strategy below its own bound.
- `Character.fight()` is never called from the menu. The strategy chosen has
  no influence on how a session ends, how much input it reads, or the final
  hp, strength and state (`SessionIgnoresStrategy`).
- What every reachable character satisfies, `Valid`, is hp ≤ 100 and
  0 ≤ strength ≤ 100. It holds for a new character and is kept by every play
  (`SessionKeepsValid`).

## Model

| member | source | states |
|---|---|---|
| JavaInt.Wrap | src/main/java/org/example/Main.java:127-128 | a value is reduced to the Java `int` with the same low 32 bits; in range it is unchanged, one modulus above or below it is shifted back |
| JavaInt.Add | src/main/java/org/example/Main.java:9 | Java `+`: the exact sum when it fits in an `int`, otherwise the sum less or plus 2^32 |
| JavaInt.Sub | src/main/java/org/example/Main.java:36 | Java `-`: the exact difference when it fits in an `int`, otherwise the difference less or plus 2^32 |
| JavaInt.Min | src/main/java/org/example/Main.java:154 | `Math.min`: one of the two arguments and no larger than either |
| Rules.WithHp | src/main/java/org/example/Main.java:153-155 | `setHp(v)` stores `v` when `v` ≤ 100 and 100 otherwise; there is no lower bound and no other field changes |
| Rules.WithStrength | src/main/java/org/example/Main.java:161-163 | `setStrength(v)` stores `v` when `v` ≤ 100 and 100 otherwise; no other field changes |
| Rules.AttackOutcome | src/main/java/org/example/Main.java:3-25 | any state's attack changes strength only and prints that state's attack message |
| Rules.FightOutcome | src/main/java/org/example/Main.java:29-52 | any strategy's fight changes hp only and prints that strategy's message |
| Rules.PerformOutcome | src/main/java/org/example/Main.java:74-91 | no action changes the state or the strategy |
| Rules.BoostOutcome | src/main/java/org/example/Main.java:100-120 | `applyBoost` can change strength only |
| Rules.DamageOutcome | src/main/java/org/example/Main.java:100-120 | `applyDamage` can change hp only |
| Rules.ExecuteOutcome | src/main/java/org/example/Main.java:57-61 | `executeAction` prints the start message first and the end message last, with exactly the action's messages in between, and changes what the action changes |
| Rules.EffectOutcome | src/main/java/org/example/Main.java:309-311 | applying an effect (both visits, boost first) never touches state or strategy; Boost leaves hp alone and prints one boost message; Damage leaves strength alone and prints one damage message |
| Rules.StateMenuOutcome | src/main/java/org/example/Main.java:229-237 | the state submenu can change the state only |
| Rules.StrategyMenuOutcome | src/main/java/org/example/Main.java:248-256 | the strategy submenu can change the strategy only |
| Rules.ActionMenuOutcome | src/main/java/org/example/Main.java:270-283 | entries 1-3 execute an action (the output starts with the start message); no choice changes the state or the strategy; every other choice changes nothing; which action each entry runs is `Properties.MenuSelects` |
| Rules.EffectMenuOutcome | src/main/java/org/example/Main.java:296-311 | no choice changes the state or the strategy; any choice other than 1 and 2 changes nothing; which effect each entry applies is `Properties.MenuSelects` |
| Rules.MenuOutcome | src/main/java/org/example/Main.java:199-203 | only the state submenu changes the state, only the strategy submenu the strategy, and neither of those two changes hp or strength; what each listed entry does is `Properties.MenuSelects` |
| Rules.Session | src/main/java/org/example/Main.java:189-208 | a session reads at most the inputs given; when it runs out of input it has read them all; when it exits, the last input it read is a 5 |
| Characters.Character.constructor | src/main/java/org/example/Main.java:132-137 | a new character has hp 100, strength 10, state Normal, strategy Melee, and is valid |
| Characters.Character.SetState | src/main/java/org/example/Main.java:139-142 | replaces the state only and announces the new one |
| Characters.Character.SetStrategy | src/main/java/org/example/Main.java:144-147 | replaces the strategy only and announces the new one |
| Characters.Character.SetHp | src/main/java/org/example/Main.java:153-155 | the new character is `WithHp` of the old one |
| Characters.Character.SetStrength | src/main/java/org/example/Main.java:161-163 | the new character is `WithStrength` of the old one |
| Characters.Character.Attack | src/main/java/org/example/Main.java:174-176 | the new character and the messages are the current state's `AttackOutcome` |
| Characters.Character.Fight | src/main/java/org/example/Main.java:178-180 | the new character and the messages are the current strategy's `FightOutcome` |
| Characters.StateAttack | src/main/java/org/example/Main.java:6-25 | the in-place attack of a given state on a given character is `AttackOutcome` |
| Characters.StrategyFight | src/main/java/org/example/Main.java:33-52 | the in-place fight of a given strategy on a given character is `FightOutcome` |
| Actions.ExecuteAction | src/main/java/org/example/Main.java:57-61 | the in-place `executeAction` is `ExecuteOutcome`: start message, the action's messages, end message, and the action's effect |
| Actions.PerformAction | src/main/java/org/example/Main.java:74-91 | the in-place effect of each action is `PerformOutcome` |
| Effects.ApplyBoost | src/main/java/org/example/Main.java:100-120 | the in-place `applyBoost` of either effect is `BoostOutcome` |
| Effects.ApplyDamage | src/main/java/org/example/Main.java:100-120 | the in-place `applyDamage` of either effect is `DamageOutcome` |
| Game.ChangeState | src/main/java/org/example/Main.java:222-238 | the in-place state submenu is `StateMenuOutcome` |
| Game.SelectStrategy | src/main/java/org/example/Main.java:241-257 | the in-place strategy submenu is `StrategyMenuOutcome` |
| Game.PerformAction | src/main/java/org/example/Main.java:260-284 | the in-place action submenu: entries 1-3 execute that action, 4 and anything else change nothing |
| Game.ApplyEffect | src/main/java/org/example/Main.java:287-312 | the in-place effect submenu: entries 1-2 visit that effect with `applyBoost` then `applyDamage`, 3 and anything else change nothing |
| Game.Dispatch | src/main/java/org/example/Main.java:199-203 | top-level choices 1 to 4 open the matching submenu |
| Game.PlayRound | src/main/java/org/example/Main.java:193-206 | one pass of the loop is `Session`'s first round: exit on 5, no change and a warning outside 1-5, end of input detected |
| Game.Play | src/main/java/org/example/Main.java:189-209 | the loop leaves the character, the inputs read, the way it ended and the messages exactly as `Session` says, after the welcome |
| Properties.AttackKeepsValid | src/main/java/org/example/Main.java:6-25 | an attack keeps strength in 0..100 and hp ≤ 100 |
| Properties.AttackByState | src/main/java/org/example/Main.java:6-25 | Normal gives strength min(s+1,100), PoweredUp min(s+5,100), Defeated exactly 0; hp, state and strategy unchanged |
| Properties.AttackNeverWeakens | src/main/java/org/example/Main.java:6-18 | outside Defeated, an attack never lowers strength and never takes it above 100 |
| Properties.FightByStrategy | src/main/java/org/example/Main.java:33-52 | Melee gives hp min(h-10,100), Ranged min(h-5,100), Magic min(h-15,100), each wherever its own subtraction does not wrap, for every character; strength, state and strategy unchanged |
| Properties.FightWrapsAround | src/main/java/org/example/Main.java:33-52 | below `Integer.MIN_VALUE` plus 10, 5 or 15, the Melee, Ranged or Magic fight wraps hp around and `setHp` leaves 100 |
| Properties.FightCanMakeHpNegative | src/main/java/org/example/Main.java:153-155 | hp has no lower bound: a melee fight at hp 5 leaves -5 |
| Properties.PerformByAction | src/main/java/org/example/Main.java:74-91 | the Attack action is exactly `character.attack()`, Defend changes nothing, Heal gives hp min(h+20,100) |
| Properties.EffectByKind | src/main/java/org/example/Main.java:100-120 | Boost gives strength min(s+10,100) with hp unchanged at every hp; Damage leaves strength unchanged and gives hp h-30 wherever the subtraction does not wrap |
| Properties.InapplicableVisitIsInert | src/main/java/org/example/Main.java:106-108 | the visit that does not belong to an effect changes nothing and prints nothing |
| Properties.DamageWrapsAround | src/main/java/org/example/Main.java:114 | Damage at any hp below `Integer.MIN_VALUE + 30` wraps around and `setHp` leaves hp 100 |
| Properties.UnlistedChoiceChangesNothing | src/main/java/org/example/Main.java:231-307 | in every submenu, "go back" and every out-of-range choice leave the character unchanged, with the return message or the invalid-option message |
| Properties.StateMenuSelects | src/main/java/org/example/Main.java:231-234 | state entries 1, 2, 3 set Normal, PoweredUp, Defeated and nothing else |
| Properties.StrategyMenuSelects | src/main/java/org/example/Main.java:250-253 | strategy entries 1, 2, 3 set Melee, Ranged, Magic and nothing else |
| Properties.MenuSelects | src/main/java/org/example/Main.java:199-298 | top-level choice 1-4 opens the matching submenu, and each listed entry runs the operation it names: Normal, PoweredUp, Defeated; Melee, Ranged, Magic; executing Attack, Defend, Heal; applying Boost, Damage |
| Properties.ExecuteKeepsValid | src/main/java/org/example/Main.java:57-91 | executing any action keeps hp ≤ 100 and strength in 0..100 |
| Properties.EffectKeepsValid | src/main/java/org/example/Main.java:100-120 | applying any effect keeps hp ≤ 100 and strength in 0..100 |
| Properties.MenuKeepsValid | src/main/java/org/example/Main.java:222-312 | every submenu visit keeps a valid character valid |
| Properties.TopLevelInvalidChoice | src/main/java/org/example/Main.java:205 | a top-level choice outside 1-5 changes nothing, warns, and the loop goes round again on the rest of the input |
| Properties.TopLevelExit | src/main/java/org/example/Main.java:204-208 | top-level choice 5 ends the loop at once with the farewell and nothing changed |
| Properties.SessionKeepsValid | src/main/java/org/example/Main.java:192-207 | for every input sequence, a valid character stays valid: hp at most 100, strength in 0..100 |
| Properties.SessionIgnoresStrategy | src/main/java/org/example/Main.java:192-207 | the strategy never affects how a session ends, how much it reads, or the final hp, strength and state |
| Properties.SessionWithoutFive | src/main/java/org/example/Main.java:192-207 | input with no 5 never exits: the loop reads every input and ends for lack of input |
| Properties.FiveInSubmenuDoesNotExit | src/main/java/org/example/Main.java:229-305 | a 5 typed in any submenu prints the invalid-option message, changes nothing and the loop goes round again on the rest of the input |
| Properties.PoweredUpAttackScenario | src/main/java/org/example/Main.java:13-18 | a new character set to PoweredUp, then attacking, has strength 15 |
| Properties.MagicFightScenario | src/main/java/org/example/Main.java:47-52 | a new character with the Magic strategy ends a fight with hp 85 |
| Properties.BoostScenario | src/main/java/org/example/Main.java:100-104 | a new character given Boost has strength 20 and hp 100 |
| Properties.DamageScenario | src/main/java/org/example/Main.java:111-115 | a new character given Damage has hp 70 and strength 10 |
| Properties.OutOfRangeScenario | src/main/java/org/example/Main.java:199-206 | top-level 9 then 5 leaves a new character unchanged, with a warning between two status displays |

## Left out

- Console text: the menus, prompts, the status lines and their emoji
  (`showMainMenu`, the `System.out` calls). The messages the program prints
  are modelled as abstract `Event`s. A `Status` event stands for one
  `displayStatus`.
- `getClass().getSimpleName()` in `setState`, `setStrategy` and
  `displayStatus`: names are the datatype constructors.
- Input that `nextInt` rejects with `InputMismatchException`: the model
  assumes every input is a Java `int`. Non-numeric tokens and numbers outside
  the `int` range, which crash the program, cannot be expressed. Running out of input, where `nextInt` throws
  `NoSuchElementException`, is the `InputExhausted` outcome. The program then
  ends without its farewell.
- `getInput`: each submenu in the program reads its own choice. In the model,
  `PlayRound` reads it and passes it to the submenu method. No output falls
  between the two points, since prompts are not modelled.
- The static `character` and `scanner`: the one `Character` is passed to
  `Play`, and the input is a `seq<Int32>`.
- The getters `getHp` and `getStrength` are plain field reads.
- `Character.fight()` and the strategies' `fight` are modelled and proved,
  but no menu path reaches them, just as in the program.
