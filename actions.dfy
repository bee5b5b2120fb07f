/** The `GameAction` template and its three actions (Template Method pattern). */
module Actions {
  import opened JavaInt
  import opened Rules
  import opened Characters

  /**
   * `executeAction`: the start message, then the action, then the end message,
   * always in that order.
   */
  method ExecuteAction(action: Action, c: Character) returns (events: seq<Event>)
    modifies c
    ensures Turn(c.View(), events) == ExecuteOutcome(action, old(c.View()))
  {
    events := [ActionStarted];
    var performed := PerformAction(action, c);
    events := events + performed + [ActionCompleted];
  }

  /** `AttackAction`, `DefendAction` and `HealAction`'s `performAction(character)`. */
  method PerformAction(action: Action, c: Character) returns (events: seq<Event>)
    modifies c
    ensures Turn(c.View(), events) == PerformOutcome(action, old(c.View()))
  {
    match action
    case AttackAction =>
      events := c.Attack();
    case DefendAction =>
      events := [Defended];
    case HealAction =>
      events := [Healed];
      c.SetHp(Add(c.hp, 20));
  }
}
