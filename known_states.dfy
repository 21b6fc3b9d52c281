/**
 * The known-state lookup (`states`) and the initial-state check every validating constructor
 * makes (`if (!this.states[state]) throw …`).
 */
module KnownStates {
  import opened Schema

  /** The error a constructor throws: "Invalid initial state", naming the state and the known states. */
  datatype InitError = InvalidInitialState(state: State, known: set<State>)

  /** `keys.reduce((lookup, s) => { lookup[s] = s; return lookup; }, {})`, a left fold over the keys. */
  function StatesLookup(keys: seq<State>): map<State, State>
  {
    if keys == [] then map[]
    else StatesLookup(keys[..|keys| - 1])[keys[|keys| - 1] := keys[|keys| - 1]]
  }

  /** The lookup maps exactly the folded keys, each to itself. */
  lemma {:induction false} StatesLookupSpec(keys: seq<State>)
    ensures forall s :: s in StatesLookup(keys) <==> s in keys
    ensures forall s :: s in StatesLookup(keys) ==> StatesLookup(keys)[s] == s
  {
    if keys != [] {
      var init := keys[..|keys| - 1];
      StatesLookupSpec(init);
      assert keys == init + [keys[|keys| - 1]];
    }
  }

  /** A machine's states are its schema's string keys: neither the wildcard group nor names that occur only as targets. */
  lemma StatesAreTopKeys<T>(t: Table<T>)
    ensures forall s :: s in StatesLookup(TopKeys(t)) <==> exists i :: 0 <= i < |t.rules| && t.rules[i].0 == s
    ensures forall s :: s in StatesLookup(TopKeys(t)) ==> StatesLookup(TopKeys(t))[s] == s
  {
    StatesLookupSpec(TopKeys(t));
    forall s | s in TopKeys(t) ensures exists i :: 0 <= i < |t.rules| && t.rules[i].0 == s {
      var i :| 0 <= i < |TopKeys(t)| && TopKeys(t)[i] == s;
    }
    forall i | 0 <= i < |t.rules| ensures t.rules[i].0 in TopKeys(t) {
      assert TopKeys(t)[i] == t.rules[i].0;
    }
  }

  /** The names every plain object inherits from `Object.prototype`; each reads as a truthy value. */
  const ObjectPrototypeNames: set<State> := {
    "constructor", "hasOwnProperty", "isPrototypeOf", "propertyIsEnumerable", "toLocaleString",
    "toString", "valueOf", "__proto__", "__defineGetter__", "__defineSetter__",
    "__lookupGetter__", "__lookupSetter__"
  }

  /**
   * `!!states[s]` as written: an own entry is truthy unless it is the empty string, and a name the
   * lookup does not own is read from `Object.prototype`.
   */
  predicate LookupTruthy(states: map<State, State>, s: State): (b: bool)
    ensures b <==> IsKnownState(states, s) || (s !in states && s in ObjectPrototypeNames)
  {
    if s in states then states[s] != "" else s in ObjectPrototypeNames
  }

  /** The check with the prototype chain left out: an own entry that is not the empty string. */
  predicate IsKnownState(states: map<State, State>, s: State)
  {
    s in states && states[s] != ""
  }

  /** As written, an inherited name passes the check for a schema that never mentions it. */
  lemma InheritedNamePassesCheck()
    ensures LookupTruthy(StatesLookup(["empty", "running"]), "toString")
    ensures !IsKnownState(StatesLookup(["empty", "running"]), "toString")
  {
    StatesLookupSpec(["empty", "running"]);
    assert "toString" != "empty" && "toString" != "running";
  }

  /**
   * The corrected check accepts exactly the schema's string keys, except the empty string, which
   * `!` still rejects because `""` is falsy.
   */
  lemma KnownStateIsTopKey<T>(t: Table<T>, s: State)
    ensures IsKnownState(StatesLookup(TopKeys(t)), s) <==> s in TopKeys(t) && s != ""
  {
    StatesLookupSpec(TopKeys(t));
  }

  /** The two checks differ only on inherited names. */
  lemma ChecksAgreeOffPrototype(states: map<State, State>, s: State)
    requires s !in ObjectPrototypeNames || s in states
    ensures LookupTruthy(states, s) == IsKnownState(states, s)
  {
  }
}
