/**
 * packages/devtool/src/visualizer.ts, the part that turns a rule table into a node list and an
 * edge list: nodes are every name the table mentions, strong edges are the explicit rules other
 * than `Route.Never`, weak edges connect each state to each wildcard target it has no rule for.
 */
module Graph {
  import opened Results
  import opened Schema
  import KnownStates

  datatype EdgeType = Strong | Weak

  datatype Edge = Edge(from: State, to: State, kind: EdgeType)

  /** Every target key, group by group: `flatten(levelA.map(k => Object.keys(machine[k])))`. */
  function Targets<T>(rules: seq<(State, Group<T>)>): seq<State>
  {
    if rules == [] then [] else Keys(rules[0].1) + Targets(rules[1..])
  }

  /** The first position of `s` in `xs`, or `|xs|`. */
  function IndexIn(xs: seq<State>, s: State): (i: nat)
    ensures i <= |xs|
    ensures i < |xs| ==> xs[i] == s
    ensures forall j :: 0 <= j < i ==> xs[j] != s
  {
    if xs == [] then 0 else if xs[0] == s then 0 else 1 + IndexIn(xs[1..], s)
  }

  /** One step of `reduce((p, c) => { if (p.indexOf(c) === -1) p.push(c); return p; }, acc)` and the rest of the fold. */
  function DedupInto(acc: seq<State>, xs: seq<State>): seq<State>
    decreases |xs|
  {
    if xs == [] then acc
    else DedupInto(if xs[0] in acc then acc else acc + [xs[0]], xs[1..])
  }

  function Dedup(xs: seq<State>): seq<State>
  {
    DedupInto([], xs)
  }

  /** The fold keeps `acc`, then appends the names of `xs` not yet seen, once each, in first-occurrence order. */
  lemma DedupIntoSpec(acc: seq<State>, xs: seq<State>)
    requires Distinct(acc)
    ensures var r := DedupInto(acc, xs);
      && Distinct(r)
      && |acc| <= |r| && r[..|acc|] == acc
      && (forall s :: s in r <==> s in acc || s in xs)
      && (forall i, j :: |acc| <= i < j < |r| ==> IndexIn(xs, r[i]) < IndexIn(xs, r[j]))
  {
    DedupIntoDistinct(acc, xs);
    DedupIntoPrefix(acc, xs);
    DedupIntoMembers(acc, xs);
    DedupIntoOrder(acc, xs);
  }

  lemma {:induction false} DedupIntoPrefix(acc: seq<State>, xs: seq<State>)
    ensures |acc| <= |DedupInto(acc, xs)| && DedupInto(acc, xs)[..|acc|] == acc
    decreases |xs|
  {
    if xs != [] {
      var acc' := if xs[0] in acc then acc else acc + [xs[0]];
      DedupIntoPrefix(acc', xs[1..]);
      var r := DedupInto(acc', xs[1..]);
      assert r[..|acc|] == r[..|acc'|][..|acc|];
    }
  }

  lemma {:induction false} DedupIntoMembers(acc: seq<State>, xs: seq<State>)
    ensures forall s :: s in DedupInto(acc, xs) <==> s in acc || s in xs
    decreases |xs|
  {
    if xs != [] {
      var acc' := if xs[0] in acc then acc else acc + [xs[0]];
      DedupIntoMembers(acc', xs[1..]);
      assert xs == [xs[0]] + xs[1..];
    }
  }

  lemma {:induction false} DedupIntoDistinct(acc: seq<State>, xs: seq<State>)
    requires Distinct(acc)
    ensures Distinct(DedupInto(acc, xs))
    decreases |xs|
  {
    if xs != [] {
      var acc' := if xs[0] in acc then acc else acc + [xs[0]];
      assert Distinct(acc');
      DedupIntoDistinct(acc', xs[1..]);
    }
  }

  lemma {:induction false} DedupIntoOrder(acc: seq<State>, xs: seq<State>)
    requires Distinct(acc)
    ensures var r := DedupInto(acc, xs);
      forall i, j :: |acc| <= i < j < |r| ==> IndexIn(xs, r[i]) < IndexIn(xs, r[j])
    decreases |xs|
  {
    if xs != [] {
      var x, rest := xs[0], xs[1..];
      var acc' := if x in acc then acc else acc + [x];
      assert Distinct(acc');
      DedupIntoOrder(acc', rest);
      DedupIntoPrefix(acc', rest);
      DedupIntoDistinct(acc', rest);
      var r := DedupInto(acc', rest);
      assert r == DedupInto(acc, xs);
      forall k | |acc'| <= k < |r| ensures r[k] != x && IndexIn(xs, r[k]) == 1 + IndexIn(rest, r[k]) {
        assert r[k] !in r[..|acc'|] by {
          forall m | 0 <= m < |acc'| ensures r[m] != r[k] { }
        }
        assert x in acc';
      }
      if x !in acc {
        assert r[|acc|] == x;
        assert IndexIn(xs, x) == 0;
      }
    }
  }

  /** `states` in the visualizer: the string keys, then every target, then every wildcard target, duplicates dropped. */
  function Nodes<T>(t: Table<T>): seq<State>
  {
    Dedup(TopKeys(t) + Targets(t.rules) + Keys(Wildcard(t)))
  }

  /** The strong edges out of one state: one per rule of its group, in key order, skipping `Route.Never`. */
  function StrongFrom<T>(from: State, group: Group<T>): (r: seq<Edge>)
    ensures forall p :: 0 <= p < |r| ==> r[p].kind == Strong && r[p].from == from
  {
    if group == [] then []
    else (if group[0].1.Never? then [] else [Edge(from, group[0].0, Strong)]) + StrongFrom(from, group[1..])
  }

  /** The strong edges of the whole table, group by group in key order. */
  function StrongEdges<T>(rules: seq<(State, Group<T>)>): (r: seq<Edge>)
    ensures forall p :: 0 <= p < |r| ==> r[p].kind == Strong
  {
    if rules == [] then [] else StrongFrom(rules[0].0, rules[0].1) + StrongEdges(rules[1..])
  }

  /**
   * The weak edges out of one state: one per wildcard target for which `machine[from][to]` is falsy
   * and that is not the state itself. The read goes through the prototype chain, so a target named
   * like a member of `Object.prototype` counts as a rule of every state and gets no weak edge.
   */
  function WeakFrom<T>(from: State, group: Group<T>, wild: seq<State>): (r: seq<Edge>)
    ensures forall p :: 0 <= p < |r| ==> r[p].kind == Weak && r[p].from == from
  {
    if wild == [] then []
    else (if wild[0] in Keys(group) || wild[0] in KnownStates.ObjectPrototypeNames || from == wild[0] then [] else [Edge(from, wild[0], Weak)]) + WeakFrom(from, group, wild[1..])
  }

  /** The weak edges of the whole table, state by state in key order. */
  function WeakEdges<T>(rules: seq<(State, Group<T>)>, wild: seq<State>): (r: seq<Edge>)
    ensures forall p :: 0 <= p < |r| ==> r[p].kind == Weak
  {
    if rules == [] then [] else WeakFrom(rules[0].0, rules[0].1, wild) + WeakEdges(rules[1..], wild)
  }

  /** `data.edges`: the strong edges followed by the weak edges. */
  function Edges<T>(t: Table<T>): (r: seq<Edge>)
    ensures forall p, q :: 0 <= p < q < |r| && r[p].kind == Weak ==> r[q].kind == Weak
  {
    StrongEdges(t.rules) + WeakEdges(t.rules, Keys(Wildcard(t)))
  }

  /**
   * Edges follow table order: the edges drawn from the first `i` entries of the table come before
   * those drawn from the rest, for strong and weak edges alike.
   */
  lemma {:induction false} EdgesInTableOrder<T>(rules: seq<(State, Group<T>)>, wild: seq<State>, i: nat)
    requires i <= |rules|
    ensures StrongEdges(rules) == StrongEdges(rules[..i]) + StrongEdges(rules[i..])
    ensures WeakEdges(rules, wild) == WeakEdges(rules[..i], wild) + WeakEdges(rules[i..], wild)
  {
    if i == 0 {
      assert rules[..0] == [] && rules[0..] == rules;
    } else {
      EdgesInTableOrder(rules[1..], wild, i - 1);
      assert rules[..i][1..] == rules[1..][..i - 1];
      assert rules[1..][i - 1..] == rules[i..];
    }
  }

  predicate Connects(e: Edge, from: State, to: State)
  {
    e.from == from && e.to == to
  }

  /** `findEdgeData(from, to)`: `edges.filter(e => e.from === from && e.to === to)[0]`. */
  function FindEdgeData(edges: seq<Edge>, from: State, to: State): (r: Option<Edge>)
    ensures r.None? <==> forall i :: 0 <= i < |edges| ==> !Connects(edges[i], from, to)
    ensures r.Some? ==> exists i :: 0 <= i < |edges| && edges[i] == r.value && Connects(r.value, from, to) &&
                                    forall j :: 0 <= j < i ==> !Connects(edges[j], from, to)
  {
    if edges == [] then None
    else if Connects(edges[0], from, to) then Some(edges[0])
    else FindEdgeData(edges[1..], from, to)
  }

  /** The node list has no duplicates, names exactly what the table mentions, and keeps first-occurrence order. */
  lemma NodesSpec<T>(t: Table<T>)
    ensures Distinct(Nodes(t))
    ensures forall s :: s in Nodes(t) <==> s in TopKeys(t) || s in Targets(t.rules) || s in Keys(Wildcard(t))
    ensures var all := TopKeys(t) + Targets(t.rules) + Keys(Wildcard(t));
      forall i, j :: 0 <= i < j < |Nodes(t)| ==> IndexIn(all, Nodes(t)[i]) < IndexIn(all, Nodes(t)[j])
  {
    DedupIntoSpec([], TopKeys(t) + Targets(t.rules) + Keys(Wildcard(t)));
  }

  /** A rule of `rules` that is not `Route.Never`: the `j`th of the `i`th group. */
  predicate LiveRule<T>(rules: seq<(State, Group<T>)>, i: int, j: int)
  {
    0 <= i < |rules| && 0 <= j < |rules[i].1| && !rules[i].1[j].1.Never?
  }

  lemma {:induction false} StrongFromIff<T>(from: State, group: Group<T>, e: Edge)
    ensures e in StrongFrom(from, group) <==>
      e.from == from && e.kind == Strong && exists j :: 0 <= j < |group| && group[j].0 == e.to && !group[j].1.Never?
  {
    if group != [] {
      StrongFromIff(from, group[1..], e);
      if e in StrongFrom(from, group[1..]) {
        var j :| 0 <= j < |group[1..]| && group[1..][j].0 == e.to && !group[1..][j].1.Never?;
        assert group[j + 1] == group[1..][j];
      }
      if e.from == from && e.kind == Strong && exists j :: 0 <= j < |group| && group[j].0 == e.to && !group[j].1.Never? {
        var j :| 0 <= j < |group| && group[j].0 == e.to && !group[j].1.Never?;
        if j > 0 {
          assert group[1..][j - 1] == group[j];
        }
      }
    }
  }

  /** Strong edges are exactly the explicit rules other than `Route.Never`, self-loops included. */
  lemma {:induction false} StrongEdgesIff<T>(rules: seq<(State, Group<T>)>, e: Edge)
    ensures e in StrongEdges(rules) <==>
      e.kind == Strong && exists i, j :: LiveRule(rules, i, j) && rules[i].0 == e.from && rules[i].1[j].0 == e.to
  {
    if rules != [] {
      StrongEdgesIff(rules[1..], e);
      StrongFromIff(rules[0].0, rules[0].1, e);
      if e in StrongEdges(rules[1..]) {
        var i, j :| LiveRule(rules[1..], i, j) && rules[1..][i].0 == e.from && rules[1..][i].1[j].0 == e.to;
        assert LiveRule(rules, i + 1, j);
      }
      if e in StrongFrom(rules[0].0, rules[0].1) {
        var j :| 0 <= j < |rules[0].1| && rules[0].1[j].0 == e.to && !rules[0].1[j].1.Never?;
        assert LiveRule(rules, 0, j);
      }
      if e.kind == Strong && exists i, j :: LiveRule(rules, i, j) && rules[i].0 == e.from && rules[i].1[j].0 == e.to {
        var i, j :| LiveRule(rules, i, j) && rules[i].0 == e.from && rules[i].1[j].0 == e.to;
        if i > 0 {
          assert LiveRule(rules[1..], i - 1, j);
        }
      }
    }
  }

  lemma {:induction false} WeakFromIff<T>(from: State, group: Group<T>, wild: seq<State>, e: Edge)
    ensures e in WeakFrom(from, group, wild) <==>
      && e.from == from && e.kind == Weak && e.to in wild && from != e.to
      && e.to !in Keys(group) && e.to !in KnownStates.ObjectPrototypeNames
  {
    if wild != [] {
      WeakFromIff(from, group, wild[1..], e);
      assert e.to in wild <==> e.to == wild[0] || e.to in wild[1..];
    }
  }

  /**
   * Weak edges are exactly the pairs (state, wildcard target) where the state has no rule for the
   * target, the target is not inherited from `Object.prototype`, and the state is not the target.
   */
  lemma {:induction false} WeakEdgesIff<T>(rules: seq<(State, Group<T>)>, wild: seq<State>, e: Edge)
    ensures e in WeakEdges(rules, wild) <==>
      && e.kind == Weak && e.to in wild && e.from != e.to && e.to !in KnownStates.ObjectPrototypeNames
      && exists i :: 0 <= i < |rules| && rules[i].0 == e.from && e.to !in Keys(rules[i].1)
  {
    if rules != [] {
      WeakEdgesIff(rules[1..], wild, e);
      WeakFromIff(rules[0].0, rules[0].1, wild, e);
      if e in WeakEdges(rules[1..], wild) {
        var i :| 0 <= i < |rules[1..]| && rules[1..][i].0 == e.from && e.to !in Keys(rules[1..][i].1);
        assert rules[i + 1] == rules[1..][i];
      }
      if exists i :: 0 <= i < |rules| && rules[i].0 == e.from && e.to !in Keys(rules[i].1) {
        var i :| 0 <= i < |rules| && rules[i].0 == e.from && e.to !in Keys(rules[i].1);
        if i > 0 {
          assert rules[1..][i - 1] == rules[i];
        }
      }
    }
  }

  /**
   * A wildcard target named like a member of `Object.prototype` gets no weak edge, even from a
   * state with no rules: `machine.a.toString` is the inherited function, which is truthy.
   */
  lemma InheritedTargetGetsNoWeakEdge<T>()
    ensures WeakEdges<T>([("a", [])], ["toString"]) == []
    ensures WeakEdges<T>([("a", [])], ["b"]) == [Edge("a", "b", Weak)]
  {
  }

  /** Two positions of a well-formed table with the same key are the same position. */
  lemma SameKeySameEntry<T>(t: Table<T>, i: nat, k: nat)
    requires WellFormed(t) && i < |t.rules| && k < |t.rules| && t.rules[i].0 == t.rules[k].0
    ensures i == k
  {
    assert TopKeys(t)[i] == TopKeys(t)[k];
  }

  /** No pair is both strongly and weakly connected, and a `Route.Never` rule yields neither kind of edge. */
  lemma StrongWeakDisjoint<T>(t: Table<T>)
    requires WellFormed(t)
    ensures forall a, b :: a in StrongEdges(t.rules) && b in WeakEdges(t.rules, Keys(Wildcard(t))) ==>
      !Connects(a, b.from, b.to)
    ensures forall i, j, e :: 0 <= i < |t.rules| && 0 <= j < |t.rules[i].1| && t.rules[i].1[j].1.Never? && e in Edges(t) ==>
      !Connects(e, t.rules[i].0, t.rules[i].1[j].0)
  {
    var wild := Keys(Wildcard(t));
    forall a, b | a in StrongEdges(t.rules) && b in WeakEdges(t.rules, wild) ensures !Connects(a, b.from, b.to) {
      StrongEdgesIff(t.rules, a);
      WeakEdgesIff(t.rules, wild, b);
      var i, j :| LiveRule(t.rules, i, j) && t.rules[i].0 == a.from && t.rules[i].1[j].0 == a.to;
      var k :| 0 <= k < |t.rules| && t.rules[k].0 == b.from && b.to !in Keys(t.rules[k].1);
      assert Keys(t.rules[i].1)[j] == a.to;
      if a.from == b.from {
        SameKeySameEntry(t, i, k);
      }
    }
    forall i, j, e | 0 <= i < |t.rules| && 0 <= j < |t.rules[i].1| && t.rules[i].1[j].1.Never? && e in Edges(t)
      ensures !Connects(e, t.rules[i].0, t.rules[i].1[j].0)
    {
      if e in StrongEdges(t.rules) {
        StrongEdgesIff(t.rules, e);
        var i', j' :| LiveRule(t.rules, i', j') && t.rules[i'].0 == e.from && t.rules[i'].1[j'].0 == e.to;
        if e.from == t.rules[i].0 {
          SameKeySameEntry(t, i, i');
          assert j != j';
          assert Keys(t.rules[i].1)[j] != Keys(t.rules[i].1)[j'];
        }
      } else {
        WeakEdgesIff(t.rules, wild, e);
        var k :| 0 <= k < |t.rules| && t.rules[k].0 == e.from && e.to !in Keys(t.rules[k].1);
        assert Keys(t.rules[i].1)[j] == t.rules[i].1[j].0;
        if e.from == t.rules[i].0 {
          SameKeySameEntry(t, i, k);
        }
      }
    }
  }

  /** Every edge joins two listed nodes. */
  lemma EdgesWithinNodes<T>(t: Table<T>)
    ensures forall e :: e in Edges(t) ==> e.from in Nodes(t) && e.to in Nodes(t)
  {
    NodesSpec(t);
    var wild := Keys(Wildcard(t));
    forall e | e in Edges(t) ensures e.from in Nodes(t) && e.to in Nodes(t) {
      if e in StrongEdges(t.rules) {
        StrongEdgesIff(t.rules, e);
        var i, j :| LiveRule(t.rules, i, j) && t.rules[i].0 == e.from && t.rules[i].1[j].0 == e.to;
        assert TopKeys(t)[i] == e.from;
        TargetIn(t.rules, i, j);
      } else {
        WeakEdgesIff(t.rules, wild, e);
        var i :| 0 <= i < |t.rules| && t.rules[i].0 == e.from && e.to !in Keys(t.rules[i].1);
        assert TopKeys(t)[i] == e.from;
      }
    }
  }

  lemma {:induction false} TargetIn<T>(rules: seq<(State, Group<T>)>, i: nat, j: nat)
    requires i < |rules| && j < |rules[i].1|
    ensures rules[i].1[j].0 in Targets(rules)
  {
    if i == 0 {
      assert Keys(rules[0].1)[j] == rules[0].1[j].0;
    } else {
      TargetIn(rules[1..], i - 1, j);
    }
  }

  /** Without a wildcard group there are no wildcard nodes and no weak edges. */
  lemma {:induction false} NoWildcardNoWeakEdges<T>(t: Table<T>)
    requires t.any.None?
    ensures Edges(t) == StrongEdges(t.rules)
    ensures Nodes(t) == Dedup(TopKeys(t) + Targets(t.rules))
  {
    assert Keys(Wildcard(t)) == [];
    NoWeakEdges(t.rules);
    assert TopKeys(t) + Targets(t.rules) + [] == TopKeys(t) + Targets(t.rules);
  }

  lemma {:induction false} NoWeakEdges<T>(rules: seq<(State, Group<T>)>)
    ensures WeakEdges(rules, []) == []
  {
    if rules != [] {
      NoWeakEdges(rules[1..]);
    }
  }

  /** No two edges of `es` join the same pair. */
  predicate PairsDistinct(es: seq<Edge>)
  {
    forall i, j :: 0 <= i < j < |es| ==> !Connects(es[j], es[i].from, es[i].to)
  }

  lemma ConcatPairsDistinct(a: seq<Edge>, b: seq<Edge>)
    requires PairsDistinct(a) && PairsDistinct(b)
    requires forall x, y :: x in a && y in b ==> !Connects(y, x.from, x.to)
    ensures PairsDistinct(a + b)
  {
    forall i, j | 0 <= i < j < |a + b| ensures !Connects((a + b)[j], (a + b)[i].from, (a + b)[i].to) {
      if j >= |a| && i < |a| {
        assert (a + b)[i] in a && (a + b)[j] in b;
      } else if i >= |a| {
        assert (a + b)[i] == b[i - |a|] && (a + b)[j] == b[j - |a|];
      }
    }
  }

  lemma {:induction false} StrongFromDistinct<T>(from: State, group: Group<T>)
    requires Distinct(Keys(group))
    ensures PairsDistinct(StrongFrom(from, group))
  {
    if group != [] {
      assert Distinct(Keys(group[1..])) by {
        forall i, j | 0 <= i < j < |group[1..]| ensures Keys(group[1..])[i] != Keys(group[1..])[j] {
          assert Keys(group)[i + 1] != Keys(group)[j + 1];
        }
      }
      StrongFromDistinct(from, group[1..]);
      var head := if group[0].1.Never? then [] else [Edge(from, group[0].0, Strong)];
      forall x, y | x in head && y in StrongFrom(from, group[1..]) ensures !Connects(y, x.from, x.to) {
        StrongFromIff(from, group[1..], y);
        var j :| 0 <= j < |group[1..]| && group[1..][j].0 == y.to && !group[1..][j].1.Never?;
        assert Keys(group)[0] != Keys(group)[j + 1];
      }
      ConcatPairsDistinct(head, StrongFrom(from, group[1..]));
    }
  }

  lemma {:induction false} WeakFromDistinct<T>(from: State, group: Group<T>, wild: seq<State>)
    requires Distinct(wild)
    ensures PairsDistinct(WeakFrom(from, group, wild))
  {
    if wild != [] {
      WeakFromDistinct(from, group, wild[1..]);
      var head := if wild[0] in Keys(group) || wild[0] in KnownStates.ObjectPrototypeNames || from == wild[0] then [] else [Edge(from, wild[0], Weak)];
      forall x, y | x in head && y in WeakFrom(from, group, wild[1..]) ensures !Connects(y, x.from, x.to) {
        WeakFromIff(from, group, wild[1..], y);
      }
      ConcatPairsDistinct(head, WeakFrom(from, group, wild[1..]));
    }
  }

  /** The rules after the first of a well-formed table form a well-formed table. */
  lemma TailWellFormed<T>(t: Table<T>)
    requires WellFormed(t) && t.rules != []
    ensures WellFormed(Table(t.rules[1..], t.any))
  {
    var t' := Table(t.rules[1..], t.any);
    forall i, j | 0 <= i < j < |t'.rules| ensures TopKeys(t')[i] != TopKeys(t')[j] {
      assert TopKeys(t)[i + 1] != TopKeys(t)[j + 1];
    }
    forall i | 0 <= i < |t'.rules| ensures Distinct(Keys(t'.rules[i].1)) {
      assert t'.rules[i] == t.rules[i + 1];
    }
  }

  lemma {:induction false} EdgesDistinct<T>(t: Table<T>)
    requires WellFormed(t)
    ensures PairsDistinct(StrongEdges(t.rules))
    ensures PairsDistinct(WeakEdges(t.rules, Keys(Wildcard(t))))
    decreases |t.rules|
  {
    var wild := Keys(Wildcard(t));
    if t.rules != [] {
      var t' := Table(t.rules[1..], t.any);
      TailWellFormed(t);
      EdgesDistinct(t');
      assert Wildcard(t') == Wildcard(t);
      var from := t.rules[0].0;
      StrongFromDistinct(from, t.rules[0].1);
      WeakFromDistinct(from, t.rules[0].1, wild);
      forall x, y | x in StrongFrom(from, t.rules[0].1) && y in StrongEdges(t.rules[1..]) ensures !Connects(y, x.from, x.to) {
        StrongFromIff(from, t.rules[0].1, x);
        StrongEdgesIff(t.rules[1..], y);
        var i, j :| LiveRule(t.rules[1..], i, j) && t.rules[1..][i].0 == y.from && t.rules[1..][i].1[j].0 == y.to;
        assert TopKeys(t)[0] != TopKeys(t)[i + 1];
      }
      ConcatPairsDistinct(StrongFrom(from, t.rules[0].1), StrongEdges(t.rules[1..]));
      forall x, y | x in WeakFrom(from, t.rules[0].1, wild) && y in WeakEdges(t.rules[1..], wild) ensures !Connects(y, x.from, x.to) {
        WeakFromIff(from, t.rules[0].1, wild, x);
        WeakEdgesIff(t.rules[1..], wild, y);
        var i :| 0 <= i < |t.rules[1..]| && t.rules[1..][i].0 == y.from && y.to !in Keys(t.rules[1..][i].1);
        assert TopKeys(t)[0] != TopKeys(t)[i + 1];
      }
      ConcatPairsDistinct(WeakFrom(from, t.rules[0].1, wild), WeakEdges(t.rules[1..], wild));
    }
  }

  /**
   * In a well-formed table at most one edge joins any pair, so `findEdgeData` finds the only edge
   * joining `from` and `to` when there is one.
   */
  lemma AtMostOneEdge<T>(t: Table<T>, from: State, to: State)
    requires WellFormed(t)
    ensures forall i, j :: 0 <= i < |Edges(t)| && 0 <= j < |Edges(t)| && Connects(Edges(t)[i], from, to) && Connects(Edges(t)[j], from, to) ==> i == j
    ensures FindEdgeData(Edges(t), from, to).Some? <==> exists e :: e in Edges(t) && Connects(e, from, to)
  {
    EdgesDistinct(t);
    StrongWeakDisjoint(t);
    ConcatPairsDistinct(StrongEdges(t.rules), WeakEdges(t.rules, Keys(Wildcard(t))));
  }
}
