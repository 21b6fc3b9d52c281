/**
 * How the serialisers lay out their entries: one string per explicit rule, group after group in
 * key order (`flatten(Object.keys(machine).map(from => Object.keys(machine[from]).map(...)))`),
 * and a run of strings per wildcard rule.
 */
module Entries {
  import opened Schema
  import opened Text

  /** The number of explicit rules in the schema: the sum of the group sizes. */
  function RuleCount<T>(rules: seq<(State, Group<T>)>): nat
  {
    if rules == [] then 0 else |rules[0].1| + RuleCount(rules[1..])
  }

  /** One string per explicit rule, `f(from, (to, guard))`, in key order. */
  function PerRule<T>(rules: seq<(State, Group<T>)>, f: (State, Rule<T>) -> string): seq<string>
  {
    if rules == [] then []
    else seq(|rules[0].1|, j requires 0 <= j < |rules[0].1| => f(rules[0].0, rules[0].1[j])) + PerRule(rules[1..], f)
  }

  /** The strings each wildcard rule produces, concatenated in key order. */
  function PerWildcard<T>(wild: Group<T>, f: Rule<T> -> seq<string>): seq<string>
  {
    if wild == [] then [] else f(wild[0]) + PerWildcard(wild[1..], f)
  }

  /**
   * The entry of rule `j` of group `i` sits after every rule of the groups before it: the flattened
   * list is the rules read group by group.
   */
  lemma {:induction false} PerRuleAt<T>(rules: seq<(State, Group<T>)>, f: (State, Rule<T>) -> string, i: nat, j: nat)
    requires i < |rules| && j < |rules[i].1|
    ensures |PerRule(rules, f)| == RuleCount(rules)
    ensures RuleCount(rules[..i]) + j < RuleCount(rules)
    ensures PerRule(rules, f)[RuleCount(rules[..i]) + j] == f(rules[i].0, rules[i].1[j])
  {
    if i == 0 {
      assert rules[..0] == [];
      PerRuleCount(rules[1..], f);
    } else {
      PerRuleAt(rules[1..], f, i - 1, j);
      assert rules[..i][1..] == rules[1..][..i - 1];
    }
  }

  lemma {:induction false} PerRuleCount<T>(rules: seq<(State, Group<T>)>, f: (State, Rule<T>) -> string)
    ensures |PerRule(rules, f)| == RuleCount(rules)
  {
    if rules != [] {
      PerRuleCount(rules[1..], f);
    }
  }

  /** When every wildcard rule yields `n` strings, string `m` of rule `k` sits at `k * n + m`. */
  lemma {:induction false} PerWildcardAt<T>(wild: Group<T>, f: Rule<T> -> seq<string>, n: nat, k: nat, m: nat)
    requires forall r :: |f(r)| == n
    requires k < |wild| && m < n
    ensures k * n + m < |PerWildcard(wild, f)| == |wild| * n
    ensures PerWildcard(wild, f)[k * n + m] == f(wild[k])[m]
  {
    PerWildcardCount(wild, f, n);
    if k > 0 {
      PerWildcardAt(wild[1..], f, n, k - 1, m);
      assert k * n + m == n + ((k - 1) * n + m);
    }
  }

  lemma {:induction false} PerWildcardCount<T>(wild: Group<T>, f: Rule<T> -> seq<string>, n: nat)
    requires forall r :: |f(r)| == n
    ensures |PerWildcard(wild, f)| == |wild| * n
  {
    if wild != [] {
      PerWildcardCount(wild[1..], f, n);
      assert |wild| * n == n + (|wild| - 1) * n;
    }
  }

  /** No state name of the schema (source, target or wildcard target) contains a line feed. */
  predicate OneLineNames<T>(t: Table<T>)
  {
    && (forall i :: 0 <= i < |t.rules| ==> OneLine(t.rules[i].0))
    && (forall i, j :: 0 <= i < |t.rules| && 0 <= j < |t.rules[i].1| ==> OneLine(t.rules[i].1[j].0))
    && (forall k :: 0 <= k < |Wildcard(t)| ==> OneLine(Wildcard(t)[k].0))
  }

  /** A property every per-rule string has holds of every entry. */
  lemma {:induction false} PerRuleAll<T>(rules: seq<(State, Group<T>)>, f: (State, Rule<T>) -> string, P: string -> bool)
    requires forall i, j :: 0 <= i < |rules| && 0 <= j < |rules[i].1| ==> P(f(rules[i].0, rules[i].1[j]))
    ensures forall p :: 0 <= p < |PerRule(rules, f)| ==> P(PerRule(rules, f)[p])
  {
    if rules != [] {
      forall i, j | 0 <= i < |rules[1..]| && 0 <= j < |rules[1..][i].1|
        ensures P(f(rules[1..][i].0, rules[1..][i].1[j]))
      {
        assert rules[1..][i] == rules[i + 1];
      }
      PerRuleAll(rules[1..], f, P);
    }
  }

  /** A property every string of every wildcard rule has holds of every wildcard entry. */
  lemma {:induction false} PerWildcardAll<T>(wild: Group<T>, f: Rule<T> -> seq<string>, P: string -> bool)
    requires forall k, m :: 0 <= k < |wild| && 0 <= m < |f(wild[k])| ==> P(f(wild[k])[m])
    ensures forall p :: 0 <= p < |PerWildcard(wild, f)| ==> P(PerWildcard(wild, f)[p])
  {
    if wild != [] {
      forall k, m | 0 <= k < |wild[1..]| && 0 <= m < |f(wild[1..][k])|
        ensures P(f(wild[1..][k])[m])
      {
        assert wild[1..][k] == wild[k + 1];
      }
      PerWildcardAll(wild[1..], f, P);
    }
  }
}
