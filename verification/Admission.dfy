/**
 One scenario's readers-writer gate. A gate counts the read-only trials inside, remembers
 whether a mutating trial is inside, and keeps the tasks waiting on its condition variable:
 `parked` ones wait for a notification, `woken` ones were notified and have yet to look again.

 The condition's lock is only ever held between two awaits, so each critical section is one step.
 */
module Admission {

  datatype Mode = ReadOnly | Mutating

  datatype GateState = GateState(readers: int, writerHeld: bool, parked: set<nat>, woken: set<nat>)

  const FRESH_GATE := GateState(0, false, {}, {})

  /** The two wait_for predicates. */
  predicate Admits(g: GateState, mode: Mode) {
    !g.writerHeld && (mode.Mutating? ==> g.readers == 0)
  }

  /** A task reaching the gate, or resuming after a notification: it enters, or parks (again). */
  function TryEntered(g: GateState, task: nat, mode: Mode): GateState {
    if !Admits(g, mode) then g.(parked := g.parked + {task}, woken := g.woken - {task})
    else if mode.ReadOnly? then g.(readers := g.readers + 1, woken := g.woken - {task})
    else g.(writerHeld := true, woken := g.woken - {task})
  }

  /** A holder leaving: its hold is dropped and every waiter is notified. */
  function Released(g: GateState, mode: Mode): GateState {
    var dropped := if mode.ReadOnly? then g.(readers := g.readers - 1) else g.(writerHeld := false);
    dropped.(parked := {}, woken := g.parked + g.woken)
  }

  /** A waiter cancelled inside the wait: nothing was recorded for it, so nothing is undone. */
  function Abandoned(g: GateState, task: nat): GateState {
    g.(parked := g.parked - {task}, woken := g.woken - {task})
  }

  class AdmissionGate {
    var readers: int
    var writerHeld: bool
    var parked: set<nat>
    var woken: set<nat>

    ghost function State(): GateState
      reads this
    {
      GateState(readers, writerHeld, parked, woken)
    }

    constructor ()
      ensures State() == FRESH_GATE
    {
      readers, writerHeld, parked, woken := 0, false, {}, {};
    }

    method TryEnter(task: nat, mode: Mode) returns (entered: bool)
      modifies this
      ensures entered == old(Admits(State(), mode))
      ensures State() == TryEntered(old(State()), task, mode)
    {
      woken := woken - {task};
      match mode {
        case ReadOnly =>
          entered := !writerHeld;
          if entered {
            readers := readers + 1;
          }
        case Mutating =>
          entered := !writerHeld && readers == 0;
          if entered {
            writerHeld := true;
          }
      }
      if !entered {
        parked := parked + {task};
      }
    }

    method Release(mode: Mode)
      modifies this
      ensures State() == Released(old(State()), mode)
    {
      match mode {
        case ReadOnly => readers := readers - 1;
        case Mutating => writerHeld := false;
      }
      woken := parked + woken;
      parked := {};
    }

    method Abandon(task: nat)
      modifies this
      ensures State() == Abandoned(old(State()), task)
    {
      parked := parked - {task};
      woken := woken - {task};
    }
  }

  /** The queue's gate table: one gate a scenario, made on first touch and never replaced. */
  class GateTable {
    var gates: map<string, AdmissionGate>

    ghost predicate Valid()
      reads this
    {
      forall a, b :: a in gates && b in gates && gates[a] == gates[b] ==> a == b
    }

    constructor ()
      ensures Valid() && gates == map[]
    {
      gates := map[];
    }

    /** Every caller naming one scenario gets one gate; two scenarios never share a gate. */
    method GateFor(scenario: string) returns (gate: AdmissionGate)
      requires Valid()
      requires forall s :: s in gates ==> allocated(gates[s])
      modifies this
      ensures Valid()
      ensures scenario in gates && gates[scenario] == gate
      ensures old(gates).Keys <= gates.Keys && forall s :: s in old(gates) ==> gates[s] == old(gates)[s]
      ensures gates.Keys == old(gates).Keys + {scenario}
      ensures scenario !in old(gates) ==> fresh(gate) && gate.State() == FRESH_GATE
    {
      if scenario in gates {
        return gates[scenario];
      }
      gate := new AdmissionGate();
      gates := gates[scenario := gate];
    }
  }
}
