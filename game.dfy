/**
 * `Game`: the menu loop and its four submenus. The user's typed integers are
 * the sequence `inputs`; the one character is passed in by the caller.
 */
module Game {
  import opened JavaInt
  import opened Rules
  import opened Characters
  import Actions
  import Effects

  /** `changeState`, given the choice read in the submenu. */
  method ChangeState(c: Character, choice: Int32) returns (events: seq<Event>)
    modifies c
    ensures Turn(c.View(), events) == StateMenuOutcome(choice, old(c.View()))
  {
    match choice
    case 1 => events := c.SetState(Normal);
    case 2 => events := c.SetState(PoweredUp);
    case 3 => events := c.SetState(Defeated);
    case 4 => events := [ReturningToMenu];
    case _ => events := [InvalidOption];
  }

  /** `selectStrategy`, given the choice read in the submenu. */
  method SelectStrategy(c: Character, choice: Int32) returns (events: seq<Event>)
    modifies c
    ensures Turn(c.View(), events) == StrategyMenuOutcome(choice, old(c.View()))
  {
    match choice
    case 1 => events := c.SetStrategy(Melee);
    case 2 => events := c.SetStrategy(Ranged);
    case 3 => events := c.SetStrategy(Magic);
    case 4 => events := [ReturningToMenu];
    case _ => events := [InvalidOption];
  }

  /** `performAction`, given the choice read in the submenu. */
  method PerformAction(c: Character, choice: Int32) returns (events: seq<Event>)
    modifies c
    ensures Turn(c.View(), events) == ActionMenuOutcome(choice, old(c.View()))
  {
    var action: Action;
    match choice {
      case 1 => action := AttackAction;
      case 2 => action := DefendAction;
      case 3 => action := HealAction;
      case 4 =>
        events := [ReturningToMenu];
        return;
      case _ =>
        events := [InvalidOption];
        return;
    }
    events := Actions.ExecuteAction(action, c);
  }

  /** `applyEffect`, given the choice read in the submenu: both visits, boost first. */
  method ApplyEffect(c: Character, choice: Int32) returns (events: seq<Event>)
    modifies c
    ensures Turn(c.View(), events) == EffectMenuOutcome(choice, old(c.View()))
  {
    var effect: Effect;
    match choice {
      case 1 => effect := Boost;
      case 2 => effect := Damage;
      case 3 =>
        events := [ReturningToMenu];
        return;
      case _ =>
        events := [InvalidOption];
        return;
    }
    var boosted := Effects.ApplyBoost(effect, c);
    var damaged := Effects.ApplyDamage(effect, c);
    events := boosted + damaged;
  }

  /** The switch of `main` for top-level choices 1 to 4, given the choice then read in the submenu. */
  method Dispatch(c: Character, choice: Int32, sub: Int32) returns (events: seq<Event>)
    requires 1 <= choice <= 4
    modifies c
    ensures Turn(c.View(), events) == MenuOutcome(choice, sub, old(c.View()))
  {
    match choice {
      case 1 => events := ChangeState(c, sub);
      case 2 => events := SelectStrategy(c, sub);
      case 3 => events := PerformAction(c, sub);
      case 4 => events := ApplyEffect(c, sub);
    }
  }

  /**
   * One pass of the `while (!exit)` loop of `main` with `i` inputs already read:
   * the status, the top-level choice and, for 1 to 4, the submenu's choice.
   * `exhausted` says that a read found no input left.
   */
  method PlayRound(c: Character, inputs: seq<Int32>, i: nat) returns (next: nat, exit: bool, exhausted: bool, events: seq<Event>)
    requires i <= |inputs|
    modifies c
    ensures i <= next <= |inputs|
    ensures !exhausted ==> i < next
    ensures !(exit && exhausted)
    ensures var r := Session(old(c.View()), inputs[i..]);
      if exit then r == RunResult(Exited, c.View(), next - i, events + [Farewell])
      else if exhausted then r == RunResult(InputExhausted, c.View(), next - i, events)
      else r == Shift(events, next - i, Session(c.View(), inputs[next..]))
  {
    var before := c.View();
    ghost var rest := inputs[i..];
    events := [Status(before)];
    exit, exhausted, next := false, false, i;
    if i == |inputs| {
      exhausted := true;
      return;
    }
    var choice := inputs[i];
    next := i + 1;
    if choice == 5 {
      exit := true;
    } else if 1 <= choice <= 4 {
      if next == |inputs| {
        exhausted := true;
      } else {
        var sub := inputs[next];
        next := next + 1;
        assert rest[2..] == inputs[next..];
        var submenu := Dispatch(c, choice, sub);
        events := events + submenu;
      }
    } else {
      assert rest[1..] == inputs[next..];
      events := events + [InvalidOption];
    }
  }

  /**
   * `main`: welcome, then rounds of status, top-level choice and submenu until
   * choice 5 (then farewell) or until the input runs out.
   */
  method Play(c: Character, inputs: seq<Int32>) returns (outcome: Outcome, consumed: nat, trace: seq<Event>)
    modifies c
    ensures var r := Session(old(c.View()), inputs);
      outcome == r.outcome && consumed == r.consumed && c.View() == r.final
      && trace == [Welcome] + r.trace
  {
    ghost var start := c.View();
    var log: seq<Event> := [];
    var i := 0;
    var exit := false;
    var exhausted := false;
    assert inputs[i..] == inputs;
    assert Session(start, inputs) == Shift(log, i, Session(c.View(), inputs[i..]));
    while !exit && !exhausted
      invariant i <= |inputs|
      invariant !exit && !exhausted ==>
        Session(start, inputs) == Shift(log, i, Session(c.View(), inputs[i..]))
      invariant exit ==>
        !exhausted && Session(start, inputs) == RunResult(Exited, c.View(), i, log + [Farewell])
      invariant exhausted ==>
        Session(start, inputs) == RunResult(InputExhausted, c.View(), i, log)
      decreases |inputs| - i, if exit || exhausted then 0 else 1
    {
      var next, events;
      next, exit, exhausted, events := PlayRound(c, inputs, i);
      ShiftShift(log, i, events, next - i, Session(c.View(), inputs[next..]));
      assert log + (events + [Farewell]) == log + events + [Farewell];
      log, i := log + events, next;
    }
    if exit {
      log := log + [Farewell];
    }
    trace := [Welcome] + log;
    outcome := if exit then Exited else InputExhausted;
    consumed := i;
  }
}
