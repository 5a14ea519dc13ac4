// The in-memory runner (pkg/opsy/opsy.go): one state per BuildID, moved along a fixed table.
module Opsy {
  type Id = string // a BuildID; "" is a status field that was never set

  // `NoState` is the empty string a new PackerBuilder carries.
  datatype State =
    | NoState | Initial | FlightChecks | JobCreation | JobRunning
    | JobCompleted | JobFailed | AMICreated | Error

  // The transition table, as a list per state.
  function Targets(from: State): (targets: seq<State>)
    ensures forall to :: to in targets <==> Edge(from, to)
  {
    match from
    case NoState => []
    case Initial => [Initial, FlightChecks, Error, JobRunning, JobCompleted, JobCreation]
    case FlightChecks => [Initial, JobCreation, JobRunning, Error]
    case JobCreation => [Initial, JobRunning, Error]
    case JobRunning => [Initial, JobCompleted, JobFailed, Error]
    case JobCompleted => [Initial, AMICreated, Error]
    case JobFailed => [Initial, Error]
    case AMICreated => [Initial]
    case Error => [Initial, Error]
  }

  // The same table as a relation: any known state may go back to Initial, every one but
  // AMICreated may fail, and the other edges skip forward.
  predicate Edge(from: State, to: State) {
    match to
    case NoState => false
    case Initial => from != NoState
    case Error => from != NoState && from != AMICreated
    case FlightChecks => from == Initial
    case JobCreation => from == Initial || from == FlightChecks
    case JobRunning => from == Initial || from == FlightChecks || from == JobCreation
    case JobCompleted => from == Initial || from == JobRunning
    case JobFailed => from == JobRunning
    case AMICreated => from == JobCompleted
  }

  // Edge by edge.
  lemma Transitions(from: State, to: State)
    ensures Edge(from, to) <==>
      || (from == Initial && to in {Initial, FlightChecks, Error, JobRunning, JobCompleted, JobCreation})
      || (from == FlightChecks && to in {Initial, JobCreation, JobRunning, Error})
      || (from == JobCreation && to in {Initial, JobRunning, Error})
      || (from == JobRunning && to in {Initial, JobCompleted, JobFailed, Error})
      || (from == JobCompleted && to in {Initial, AMICreated, Error})
      || (from == JobFailed && to in {Initial, Error})
      || (from == AMICreated && to == Initial)
      || (from == Error && to in {Initial, Error})
  {}

  function Current(states: map<Id, State>, id: Id): State {
    if id in states then states[id] else Initial
  }

  // How far a stored state is from the end of a round.
  function Rank(s: State): nat {
    match s
    case FlightChecks => 6
    case JobCreation => 5
    case JobRunning => 4
    case JobCompleted => 3
    case AMICreated => 2
    case JobFailed => 2
    case Error => 1
    case Initial => 0
    case NoState => 7
  }

  class OpsyRunner {
    var states: map<Id, State>

    constructor ()
      ensures states == map[]
    {
      states := map[];
    }

    method IsValidTransition(currentState: State, newState: State) returns (valid: bool)
      ensures valid == Edge(currentState, newState)
    {
      var validStates := Targets(currentState);
      for i := 0 to |validStates|
        invariant newState !in validStates[..i]
      {
        if validStates[i] == newState {
          return true;
        }
      }
      assert validStates[..|validStates|] == validStates;
      return false;
    }

    method SetState(id: Id, state: State) returns (ok: bool)
      modifies this
      ensures ok == Edge(Current(old(states), id), state)
      ensures states == if ok then old(states)[id := state] else old(states)
    {
      var currentState := Initial;
      if id in states {
        currentState := states[id];
      }
      ok := IsValidTransition(currentState, state);
      if ok {
        states := states[id := state];
      }
    }

    method GetCurrentState(id: Id) returns (state: State)
      ensures state == Current(states, id)
    {
      if id !in states {
        return Initial;
      }
      return states[id];
    }
  }
}
