/**
 * src/mata.ts: a single `Machine` class whose initial state comes from `config.init(states)`,
 * with a public, unchecked `transition`.
 */
module MataMachine {
  import opened Results
  import opened Schema
  import opened Routing
  import opened KnownStates
  import opened Subscribers

  class Machine<T> {
    /** `config.init`: picks the initial state from the lookup. */
    const init: map<State, State> -> State
    const machine: Table<T>
    const states: map<State, State>
    var state: State
    var subscribers: seq<ListenerId>
    /** Every listener call made so far, in order. */
    var delivered: seq<Delivery<T>>

    /** Just constructed from `schema` and `config.init`, with no subscribers and no notification yet. */
    ghost predicate Seeded(schema: Table<T>, config: map<State, State> -> State)
      reads this
    {
      && init == config && machine == schema && states == StatesLookup(TopKeys(schema))
      && state == config(states) && subscribers == [] && delivered == []
    }

    /** The constructor's path when its check passes. */
    constructor Seed(schema: Table<T>, config: map<State, State> -> State)
      requires IsKnownState(StatesLookup(TopKeys(schema)), config(StatesLookup(TopKeys(schema))))
      ensures Seeded(schema, config)
    {
      init := config;
      machine := schema;
      states := StatesLookup(TopKeys(schema));
      state := config(StatesLookup(TopKeys(schema)));
      subscribers := [];
      delivered := [];
    }

    /** `new Machine({config, machine})`, with its throw as an `Err` naming `config.init(states)`. */
    static method Create(schema: Table<T>, config: map<State, State> -> State) returns (r: Result<Machine<T>, InitError>)
      ensures var lookup := StatesLookup(TopKeys(schema));
        && (r.Err? <==> !IsKnownState(lookup, config(lookup)))
        && (r.Err? ==> r.error == InvalidInitialState(config(lookup), lookup.Keys))
      ensures r.Ok? ==> fresh(r.value) && r.value.Seeded(schema, config)
    {
      var lookup := StatesLookup(TopKeys(schema));
      var s := config(lookup);
      if !IsKnownState(lookup, s) {
        return Err(InvalidInitialState(s, lookup.Keys));
      }
      var m := new Machine.Seed(schema, config);
      return Ok(m);
    }

    /** `transition(state, input)`: set the state, then call every subscriber once, in order, with `{from, to, input}`. */
    method Transition(to: State, input: Option<T>) returns (r: State)
      modifies this
      ensures state == to && r == to
      ensures subscribers == old(subscribers)
      ensures delivered == old(delivered) + Notify(old(subscribers), Event(old(state), to, input))
    {
      var from := state;
      state := to;
      var sent := Dispatch(subscribers, Event(from, to, input));
      delivered := delivered + sent;
      r := to;
    }

    /** `next(input)`: commit to `Step`'s choice, or change nothing; return the state afterwards. */
    method Next(input: T) returns (r: State, ghost probes: (nat, nat))
      modifies this
      ensures subscribers == old(subscribers)
      ensures Step(machine, old(state), input).None? ==> state == old(state) && delivered == old(delivered)
      ensures Step(machine, old(state), input).Some? ==>
        && state == Step(machine, old(state), input).value
        && delivered == old(delivered) + Notify(old(subscribers), Event(old(state), state, Some(input)))
      ensures r == state
      ensures probes == Probes(machine, old(state), input)
    {
      var from := state;
      var wild, wildCalls := ScanGroup(Wildcard(machine), input);
      if wild.Some? {
        probes := (wildCalls, 0);
        r := Transition(wild.value, Some(input));
        return;
      }
      var own, ownCalls := ScanGroup(Rules(machine, from), input);
      probes := (wildCalls, ownCalls);
      if own.Some? {
        r := Transition(own.value, Some(input));
        return;
      }
      r := state;
    }

    /** `subscribe(listener)`: append the listener. */
    method Subscribe(l: ListenerId)
      modifies this
      ensures subscribers == old(subscribers) + [l]
      ensures state == old(state) && delivered == old(delivered)
    {
      subscribers := subscribers + [l];
    }

    /** The closure `subscribe` returns: install a new array without the first occurrence of `l`. */
    method Unsubscribe(l: ListenerId)
      modifies this
      ensures subscribers == Unsubscribed(old(subscribers), l)
      ensures state == old(state) && delivered == old(delivered)
    {
      subscribers := Unsubscribed(subscribers, l);
    }
  }
}
