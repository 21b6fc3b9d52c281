/**
 * packages/mata/src/mata.ts: `Machine` holds a schema and its state lookup and makes `Automata`
 * instances; an `Automata` holds the current state and its own subscriber list, and moves with
 * `force` and `next`.
 */
module MataAutomata {
  import opened Results
  import opened Schema
  import opened Routing
  import opened KnownStates
  import opened Subscribers

  class Machine<T> {
    const machine: Table<T>
    const states: map<State, State>

    /** `states` is the fold of the schema's string keys into a lookup. */
    constructor (schema: Table<T>)
      ensures machine == schema
      ensures states == StatesLookup(TopKeys(schema))
    {
      machine := schema;
      states := StatesLookup(TopKeys(schema));
    }

    /**
     * `init(state)`: a new automaton that shares this machine's schema and lookup but has its own
     * state and (empty) subscriber list, or the error its constructor throws.
     */
    method Init(state: State) returns (r: Result<Automata<T>, InitError>)
      ensures r.Err? <==> !IsKnownState(states, state)
      ensures r.Err? ==> r.error == InvalidInitialState(state, states.Keys)
      ensures r.Ok? ==> fresh(r.value) && r.value.Seeded(this, machine, states, state)
    {
      r := Automata.Create(this, machine, states, state);
    }
  }

  class Automata<T> {
    /** The machine that made this automaton (the source's `type` field). */
    const origin: Machine<T>
    const machine: Table<T>
    const states: map<State, State>
    /** The private `_state`, read through `state` and `getState()`. */
    var current: State
    var subscribers: seq<ListenerId>
    /** Every listener call made so far, in order. */
    var delivered: seq<Delivery<T>>

    /** Just constructed: the given parts, the seed state, no subscribers and no notification yet. */
    ghost predicate Seeded(m: Machine<T>, schema: Table<T>, lookup: map<State, State>, s: State)
      reads this
    {
      origin == m && machine == schema && states == lookup && current == s && subscribers == [] && delivered == []
    }

    /** The constructor's path when its check passes. */
    constructor Seed(m: Machine<T>, schema: Table<T>, lookup: map<State, State>, initialState: State)
      requires IsKnownState(lookup, initialState)
      ensures Seeded(m, schema, lookup, initialState)
    {
      origin := m;
      machine := schema;
      states := lookup;
      current := initialState;
      subscribers := [];
      delivered := [];
    }

    /** `new Automata(type, schema, states, initialState)`, with its throw as an `Err`. */
    static method Create(m: Machine<T>, schema: Table<T>, lookup: map<State, State>, initialState: State)
      returns (r: Result<Automata<T>, InitError>)
      ensures r.Err? <==> !IsKnownState(lookup, initialState)
      ensures r.Err? ==> r.error == InvalidInitialState(initialState, lookup.Keys)
      ensures r.Ok? ==> fresh(r.value) && r.value.Seeded(m, schema, lookup, initialState)
    {
      if !IsKnownState(lookup, initialState) {
        return Err(InvalidInitialState(initialState, lookup.Keys));
      }
      var a := new Automata.Seed(m, schema, lookup, initialState);
      return Ok(a);
    }

    /** Commit a move: set the state first, then call every subscriber once, in order, with `{from, to, input}`. */
    method Transition(to: State, input: Option<T>) returns (r: State)
      modifies this
      ensures current == to && r == to
      ensures subscribers == old(subscribers)
      ensures delivered == old(delivered) + Notify(old(subscribers), Event(old(current), to, input))
    {
      var from := current;
      current := to;
      var sent := Dispatch(subscribers, Event(from, to, input));
      delivered := delivered + sent;
      r := to;
    }

    /** `force(state)`: an unchecked move to `s` that notifies with no input. */
    method Force(s: State) returns (r: State)
      modifies this
      ensures current == s && r == s
      ensures subscribers == old(subscribers)
      ensures delivered == old(delivered) + Notify(old(subscribers), Event(old(current), s, None))
    {
      r := Transition(s, None);
    }

    /**
     * `next(input)`: commit to `Step`'s choice, or change nothing; return the state afterwards.
     * `probes` counts the guards called in each phase.
     */
    method Next(input: T) returns (r: State, ghost probes: (nat, nat))
      modifies this
      ensures subscribers == old(subscribers)
      ensures Step(machine, old(current), input).None? ==> current == old(current) && delivered == old(delivered)
      ensures Step(machine, old(current), input).Some? ==>
        && current == Step(machine, old(current), input).value
        && delivered == old(delivered) + Notify(old(subscribers), Event(old(current), current, Some(input)))
      ensures r == current
      ensures probes == Probes(machine, old(current), input)
    {
      var from := current;
      var wild, wildCalls := ScanGroup(Wildcard(machine), input);
      if wild.Some? {
        probes := (wildCalls, 0);
        r := Transition(wild.value, Some(input));
        return;
      }
      var own, ownCalls := ScanGroup(Rules(machine, from), input);
      probes := (wildCalls, ownCalls);
      if own.Some? {
        r := Transition(own.value, Some(input));
        return;
      }
      r := current;
    }

    /** `subscribe(listener)`: append the listener. */
    method Subscribe(l: ListenerId)
      modifies this
      ensures subscribers == old(subscribers) + [l]
      ensures current == old(current) && delivered == old(delivered)
    {
      subscribers := subscribers + [l];
    }

    /** The closure `subscribe` returns: install a new array without the first occurrence of `l`. */
    method Unsubscribe(l: ListenerId)
      modifies this
      ensures subscribers == Unsubscribed(old(subscribers), l)
      ensures current == old(current) && delivered == old(delivered)
    {
      subscribers := Unsubscribed(subscribers, l);
    }
  }
}
