/**
 * src/nav-machine.ts: `Nav`, the copy without validation and without subscribers. Its `to` also
 * writes a line to the console, which is not modelled.
 */
module NavMachine {
  import opened Results
  import opened Schema
  import opened Routing
  import opened KnownStates

  class Nav<T> {
    var state: State
    const states: map<State, State>
    const machine: Table<T>

    /** `new Nav(initialState, states)`: any initial state is taken; `states` maps each string key to itself. */
    constructor (initialState: State, schema: Table<T>)
      ensures state == initialState && machine == schema
      ensures states == StatesLookup(TopKeys(schema))
    {
      state := initialState;
      machine := schema;
      var keys := TopKeys(schema);
      var lookup := map[];
      for i := 0 to |keys|
        invariant lookup == StatesLookup(keys[..i])
      {
        assert keys[..i + 1][..i] == keys[..i];
        lookup := lookup[keys[i] := keys[i]];
      }
      assert keys[..|keys|] == keys;
      states := lookup;
    }

    /** `to(state)`: an unchecked move to `s`. */
    method To(s: State) returns (r: State)
      modifies this
      ensures state == s && r == s
    {
      state := s;
      r := s;
    }

    /** `next(data)`: move to `Step`'s choice, or stay put; return the state afterwards. */
    method Next(data: T) returns (r: State, ghost probes: (nat, nat))
      modifies this
      ensures Step(machine, old(state), data).None? ==> state == old(state)
      ensures Step(machine, old(state), data).Some? ==> state == Step(machine, old(state), data).value
      ensures r == state
      ensures probes == Probes(machine, old(state), data)
    {
      var from := state;
      var wild, wildCalls := ScanGroup(Wildcard(machine), data);
      if wild.Some? {
        probes := (wildCalls, 0);
        r := To(wild.value);
        return;
      }
      var own, ownCalls := ScanGroup(Rules(machine, from), data);
      probes := (wildCalls, ownCalls);
      if own.Some? {
        r := To(own.value);
        return;
      }
      r := state;
    }
  }
}
