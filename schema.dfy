/**
 * The rule table shared by every copy of the machine.
 *
 * A JavaScript schema `{ [from]: { [to]: guard }, [FromAnyState]: { [to]: guard } }` becomes an
 * explicit ordered sequence of `(from, group)` entries, in the key order the source's `for…in`
 * and `Object.keys` walk, plus the symbol-keyed "from any state" group held apart. `any == None`
 * is a schema without the wildcard key at all.
 */
module Schema {
  import opened Results

  type State = string

  /**
   * A guard: the reserved always-true (`Continue`) and always-false (`Route.Never`) guards, or an
   * arbitrary predicate on the input. The source tells the reserved guards apart by identity,
   * which here is a constructor test.
   */
  datatype Guard<!T> = Continue | Never | Pred(test: T -> bool)

  /** What calling the guard on `input` returns. */
  function Holds<T>(g: Guard<T>, input: T): bool
  {
    match g
    case Continue => true
    case Never => false
    case Pred(test) => test(input)
  }

  /** One `to: guard` entry of an inner mapping, and an inner mapping in key order. */
  type Rule<!T> = (State, Guard<T>)
  type Group<!T> = seq<Rule<T>>

  datatype Table<!T> = Table(rules: seq<(State, Group<T>)>, any: Option<Group<T>>)

  /** The target keys of a group, in order (`Object.keys(group)`). */
  function Keys<T>(group: Group<T>): seq<State>
  {
    seq(|group|, i requires 0 <= i < |group| => group[i].0)
  }

  /** The string keys of the schema, in order (`Object.keys(machine)`: the symbol key is not among them). */
  function TopKeys<T>(t: Table<T>): (ks: seq<State>)
    ensures |ks| == |t.rules|
    ensures forall i :: 0 <= i < |ks| ==> ks[i] == t.rules[i].0
  {
    seq(|t.rules|, i requires 0 <= i < |t.rules| => t.rules[i].0)
  }

  /** The wildcard group, or no rules when the schema has none (`machine[FromAnyState] || {}`). */
  function Wildcard<T>(t: Table<T>): (g: Group<T>)
    ensures t.any.None? ==> g == []
    ensures t.any.Some? ==> g == t.any.value
  {
    match t.any
    case None => []
    case Some(g) => g
  }

  predicate Distinct(s: seq<State>)
  {
    forall i, j :: 0 <= i < j < |s| ==> s[i] != s[j]
  }

  /** An object literal never holds a key twice: every key sequence of a table is duplicate-free. */
  predicate WellFormed<T>(t: Table<T>)
  {
    && Distinct(TopKeys(t))
    && (forall i :: 0 <= i < |t.rules| ==> Distinct(Keys(t.rules[i].1)))
    && Distinct(Keys(Wildcard(t)))
  }

  /** The position of the first entry keyed `from`, or `|rules|` when there is none. */
  function EntryIndex<T>(rules: seq<(State, Group<T>)>, from: State): (i: nat)
    ensures i <= |rules|
    ensures forall j :: 0 <= j < i ==> rules[j].0 != from
    ensures i < |rules| ==> rules[i].0 == from
  {
    if rules == [] then 0
    else if rules[0].0 == from then 0
    else 1 + EntryIndex(rules[1..], from)
  }

  /**
   * `machine[from]` walked by `for…in`: the group keyed `from`, or no rules when the key is
   * absent (a `for…in` over `undefined` runs no iteration).
   */
  function Rules<T>(t: Table<T>, from: State): (g: Group<T>)
    ensures from !in TopKeys(t) ==> g == []
    ensures from in TopKeys(t) ==>
      exists i :: 0 <= i < |t.rules| && t.rules[i].0 == from && g == t.rules[i].1 &&
                  forall j :: 0 <= j < i ==> t.rules[j].0 != from
  {
    var i := EntryIndex(t.rules, from);
    if i < |t.rules| then
      assert TopKeys(t)[i] == from;
      t.rules[i].1
    else
      assert forall j :: 0 <= j < |TopKeys(t)| ==> TopKeys(t)[j] == t.rules[j].0 != from;
      []
  }

  /** In a well-formed table the group of the `i`th entry is the one `machine[key]` finds. */
  lemma RulesAt<T>(t: Table<T>, i: nat)
    requires WellFormed(t) && i < |t.rules|
    ensures Rules(t, t.rules[i].0) == t.rules[i].1
  {
    var k := EntryIndex(t.rules, t.rules[i].0);
    assert TopKeys(t)[k] == TopKeys(t)[i];
  }
}
