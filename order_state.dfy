/** The order state machine: an order moves from pending through open and partially filled to
    one of the terminal states, and every other move is refused. */
module OrderStates {
  import opened Wrappers

  datatype OrderState = Pending | Open | PartiallyFilled | Filled | Canceled | Rejected

  /** The Debug form of a state, used in the error text. */
  function DebugName(s: OrderState): string {
    match s
      case Pending => "Pending"
      case Open => "Open"
      case PartiallyFilled => "PartiallyFilled"
      case Filled => "Filled"
      case Canceled => "Canceled"
      case Rejected => "Rejected"
  }

  /** Filled, canceled and rejected orders are finished. */
  predicate IsTerminal(s: OrderState) {
    s == Filled || s == Canceled || s == Rejected
  }

  /** Open and partially filled orders are working on the exchange. */
  predicate IsActive(s: OrderState) {
    s == Open || s == PartiallyFilled
  }

  /** `validate_transition(from, to)`: the same state, or one of the seven listed moves. */
  function ValidateTransition(from: OrderState, to: OrderState): (r: Result<(), string>)
    ensures r.Err? ==> r.error == "Invalid state transition: " + DebugName(from) + " -> " + DebugName(to)
  {
    if from == to then Ok(())
    else match (from, to)
      case (Pending, Open) => Ok(())
      case (Pending, Rejected) => Ok(())
      case (Open, PartiallyFilled) => Ok(())
      case (Open, Filled) => Ok(())
      case (Open, Canceled) => Ok(())
      case (PartiallyFilled, Filled) => Ok(())
      case (PartiallyFilled, Canceled) => Ok(())
      case _ => Err("Invalid state transition: " + DebugName(from) + " -> " + DebugName(to))
  }

  /** The moves the machine accepts. */
  predicate Allowed(from: OrderState, to: OrderState) {
    ValidateTransition(from, to).Ok?
  }

  /** The accepted moves are exactly the self-loops and the seven listed pairs. */
  lemma AllowedMoves(from: OrderState, to: OrderState)
    ensures Allowed(from, to) <==>
      from == to ||
      (from, to) in {(Pending, Open), (Pending, Rejected), (Open, PartiallyFilled), (Open, Filled),
                     (Open, Canceled), (PartiallyFilled, Filled), (PartiallyFilled, Canceled)}
  {
  }

  /** A terminal state moves only to itself, and nothing returns to `Pending`. */
  lemma NoWayOut(from: OrderState, to: OrderState)
    ensures IsTerminal(from) && Allowed(from, to) ==> to == from
    ensures Allowed(from, to) && to == Pending ==> from == Pending
  {
  }

  /** Progress through the life cycle. */
  function Stage(s: OrderState): nat {
    match s
      case Pending => 0
      case Open => 1
      case PartiallyFilled => 2
      case _ => 3
  }

  /** Every accepted move other than a self-loop goes to a later stage. */
  lemma MovesGoForward(from: OrderState, to: OrderState)
    requires Allowed(from, to) && from != to
    ensures Stage(from) < Stage(to)
  {
  }

  /** A sequence of states in which each move is accepted. */
  predicate Run(states: seq<OrderState>) {
    forall i :: 0 <= i < |states| - 1 ==> Allowed(states[i], states[i + 1])
  }

  /** Along a run the stage never goes back, and a run that ends where it started stayed in
      that state throughout: the moves have no cycle apart from self-loops. */
  lemma {:induction false} RunsHaveNoCycle(states: seq<OrderState>)
    requires |states| >= 1 && Run(states)
    ensures Stage(states[0]) <= Stage(states[|states| - 1])
    ensures states[0] == states[|states| - 1] ==> forall i :: 0 <= i < |states| ==> states[i] == states[0]
  {
    if |states| > 1 {
      var rest := states[1..];
      assert Run(rest) by {
        forall i | 0 <= i < |rest| - 1 ensures Allowed(rest[i], rest[i + 1]) {
          assert rest[i] == states[i + 1] && rest[i + 1] == states[i + 2];
        }
      }
      RunsHaveNoCycle(rest);
      assert Allowed(states[0], states[1]);
      if states[0] != states[1] {
        MovesGoForward(states[0], states[1]);
      }
      if states[0] == states[|states| - 1] {
        forall i | 0 <= i < |states| ensures states[i] == states[0] {
          if i > 0 {
            assert states[i] == rest[i - 1];
          }
        }
      }
    }
  }

  /** `OrderStateMachine`. */
  class OrderStateMachine {
    var state: OrderState

    /** `new()`: a pending order. */
    constructor ()
      ensures state == Pending
    {
      state := Pending;
    }

    /** `from_state(state)`. */
    constructor FromState(s: OrderState)
      ensures state == s
    {
      state := s;
    }

    /** `transition_to(new_state)`: moves when the move is accepted and otherwise leaves the
        state as it was. */
    method TransitionTo(newState: OrderState) returns (r: Result<(), string>)
      modifies this
      ensures r == ValidateTransition(old(state), newState)
      ensures r.Ok? ==> state == newState
      ensures r.Err? ==> state == old(state)
    {
      r := ValidateTransition(state, newState);
      if r.Err? {
        return;
      }
      state := newState;
    }

    /** `can_transition_to(target)`: whether `transition_to(target)` would succeed. */
    function CanTransitionTo(target: OrderState): (b: bool)
      reads this
      ensures b <==> Allowed(state, target)
    {
      ValidateTransition(state, target).Ok?
    }

    function IsTerminalNow(): bool
      reads this
    {
      IsTerminal(state)
    }

    function IsActiveNow(): bool
      reads this
    {
      IsActive(state)
    }
  }
}
