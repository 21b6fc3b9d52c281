/**
 * The decision `next(input)` makes, shared by the four copies of the machine
 * (packages/mata/src/mata.ts, src/mata.ts, src/mech.ts, src/nav-machine.ts): scan the wildcard
 * group in key order and take the first guard that holds; failing that, scan the current state's
 * group the same way; failing that, stay put.
 */
module Routing {
  import opened Results
  import opened Schema

  /** `k` is the first position of `group` whose guard holds on `input`. */
  predicate FirstHit<T>(group: Group<T>, input: T, k: nat)
  {
    k < |group| && Holds(group[k].1, input) && forall j :: 0 <= j < k ==> !Holds(group[j].1, input)
  }

  /** No guard of `group` holds on `input`. */
  predicate NoneHolds<T>(group: Group<T>, input: T)
  {
    forall j :: 0 <= j < |group| ==> !Holds(group[j].1, input)
  }

  /** The position of the first guard that holds, or `|group|` when none does. */
  function FirstTrue<T>(group: Group<T>, input: T): (k: nat)
    ensures k <= |group|
    ensures forall j :: 0 <= j < k ==> !Holds(group[j].1, input)
    ensures k < |group| ==> Holds(group[k].1, input)
  {
    if group == [] then 0
    else if Holds(group[0].1, input) then 0
    else 1 + FirstTrue(group[1..], input)
  }

  /** What one `for (let to in group) if (group[to](input)) return …` loop picks. */
  function FirstMatch<T>(group: Group<T>, input: T): (r: Option<State>)
    ensures r.None? <==> NoneHolds(group, input)
    ensures r.Some? ==> exists k: nat :: FirstHit(group, input, k) && r.value == group[k].0
    ensures r.Some? ==> r.value in Keys(group)
  {
    var k := FirstTrue(group, input);
    if k < |group| then assert Keys(group)[k] == group[k].0; Some(group[k].0) else None
  }

  /** How many guards that loop calls before it returns. */
  function Calls<T>(group: Group<T>, input: T): (n: nat)
    ensures n <= |group|
    ensures FirstMatch(group, input).Some? <==> 0 < n && Holds(group[n - 1].1, input)
    ensures forall j :: 0 <= j < n - 1 ==> !Holds(group[j].1, input)
  {
    var k := FirstTrue(group, input);
    if k < |group| then k + 1 else |group|
  }

  /** The state `next(input)` commits to from `from`, or `None` when it makes no transition. */
  function Step<T>(t: Table<T>, from: State, input: T): (r: Option<State>)
    ensures r.None? <==> NoneHolds(Wildcard(t), input) && NoneHolds(Rules(t, from), input)
    ensures r.Some? ==> r.value in Keys(Wildcard(t)) || r.value in Keys(Rules(t, from))
  {
    var w := FirstMatch(Wildcard(t), input);
    if w.Some? then w else FirstMatch(Rules(t, from), input)
  }

  /** The guards `next(input)` calls: how many of the wildcard group, then how many of `from`'s group. */
  function Probes<T>(t: Table<T>, from: State, input: T): (p: (nat, nat))
    ensures p.0 <= |Wildcard(t)| && p.1 <= |Rules(t, from)|
    ensures !NoneHolds(Wildcard(t), input) ==> p.1 == 0
  {
    var w := FirstMatch(Wildcard(t), input);
    (Calls(Wildcard(t), input), if w.Some? then 0 else Calls(Rules(t, from), input))
  }

  /**
   * Two-phase first-match-wins, stated without the functions that compute it: `next` moves to `s`
   * exactly when `s` is the target of the first wildcard guard that holds, or no wildcard guard
   * holds and `s` is the target of the first guard of `from`'s group that holds; it makes no
   * transition exactly when no guard of either group holds.
   */
  lemma StepIsTwoPhaseFirstMatch<T>(t: Table<T>, from: State, input: T, s: State)
    ensures Step(t, from, input) == Some(s) <==>
      || (exists k: nat :: FirstHit(Wildcard(t), input, k) && Wildcard(t)[k].0 == s)
      || (NoneHolds(Wildcard(t), input) && exists k: nat :: FirstHit(Rules(t, from), input, k) && Rules(t, from)[k].0 == s)
    ensures Step(t, from, input).None? <==> NoneHolds(Wildcard(t), input) && NoneHolds(Rules(t, from), input)
  {
    var w, e := Wildcard(t), Rules(t, from);
    if exists k: nat :: FirstHit(w, input, k) && w[k].0 == s {
      var k: nat :| FirstHit(w, input, k) && w[k].0 == s;
      FirstHitUnique(w, input, k, FirstTrue(w, input));
    } else if NoneHolds(w, input) && exists k: nat :: FirstHit(e, input, k) && e[k].0 == s {
      var k: nat :| FirstHit(e, input, k) && e[k].0 == s;
      FirstHitUnique(e, input, k, FirstTrue(e, input));
    }
  }

  /** Only one position can be the first whose guard holds. */
  lemma FirstHitUnique<T>(group: Group<T>, input: T, k: nat, m: nat)
    requires FirstHit(group, input, k)
    requires m <= |group| && (m < |group| ==> Holds(group[m].1, input))
    requires forall j :: 0 <= j < m ==> !Holds(group[j].1, input)
    ensures m == k
  {
  }

  /**
   * No shadowing in `next` (packages/mata/src/mata.ts:55-68): once a wildcard guard holds, the current state plays no part,
   * so even a state with its own rule for that target (or the target itself, giving a
   * self-transition) moves to the wildcard's target.
   */
  lemma WildcardIgnoresCurrentState<T>(t: Table<T>, a: State, b: State, input: T)
    requires !NoneHolds(Wildcard(t), input)
    ensures Step(t, a, input) == Step(t, b, input)
    ensures Step(t, a, input).Some? && Step(t, a, input).value in Keys(Wildcard(t))
  {
    var k := FirstTrue(Wildcard(t), input);
    assert Keys(Wildcard(t))[k] == Wildcard(t)[k].0;
  }

  /**
   * Guards are called lazily: `next` stops at the winning guard, so it calls the wildcard guards
   * up to and including the winner and no explicit guard, or every wildcard guard and the explicit
   * guards up to and including the winner, or every guard of both groups when nothing matches.
   */
  lemma ProbesStopAtWinner<T>(t: Table<T>, from: State, input: T)
    ensures forall k :: FirstHit(Wildcard(t), input, k) ==> Probes(t, from, input) == (k + 1, 0)
    ensures NoneHolds(Wildcard(t), input) ==>
      forall k :: FirstHit(Rules(t, from), input, k) ==> Probes(t, from, input) == (|Wildcard(t)|, k + 1)
    ensures Step(t, from, input).None? ==> Probes(t, from, input) == (|Wildcard(t)|, |Rules(t, from)|)
  {
    var w, e := Wildcard(t), Rules(t, from);
    forall k | FirstHit(w, input, k) ensures Probes(t, from, input) == (k + 1, 0) {
      FirstHitUnique(w, input, k, FirstTrue(w, input));
    }
    if NoneHolds(w, input) {
      forall k | FirstHit(e, input, k) ensures Probes(t, from, input) == (|w|, k + 1) {
        FirstHitUnique(e, input, k, FirstTrue(e, input));
      }
    }
  }

  /**
   * One `for…in` loop of `next`: calls the guards in key order and returns at the first that
   * holds, reporting its target and how many guards it called.
   */
  method ScanGroup<T>(group: Group<T>, input: T) returns (hit: Option<State>, calls: nat)
    ensures hit == FirstMatch(group, input)
    ensures calls == Calls(group, input)
  {
    var i := 0;
    while i < |group|
      invariant 0 <= i <= |group|
      invariant forall j :: 0 <= j < i ==> !Holds(group[j].1, input)
    {
      if Holds(group[i].1, input) {
        FirstHitUnique(group, input, i, FirstTrue(group, input));
        return Some(group[i].0), i + 1;
      }
      i := i + 1;
    }
    return None, |group|;
  }

  /** The wildcard rules that survive shadowing: those whose target has no rule in `explicit`. */
  function Unshadowed<T>(wild: Group<T>, explicit: seq<State>): (r: Group<T>)
    ensures forall i :: 0 <= i < |r| ==> r[i].0 !in explicit
    ensures forall i :: 0 <= i < |r| ==> r[i] in wild
    ensures forall i :: 0 <= i < |wild| && wild[i].0 !in explicit ==> wild[i] in r
    ensures |r| <= |wild|
  {
    if wild == [] then []
    else if wild[0].0 in explicit then Unshadowed(wild[1..], explicit)
    else [wild[0]] + Unshadowed(wild[1..], explicit)
  }

  /**
   * The step the newer API's tests expect: a wildcard candidate is skipped,
   * guard uncalled, when the current state has its own rule for the same target.
   */
  function StepShadowed<T>(t: Table<T>, from: State, input: T): (r: Option<State>)
    ensures r.None? <==> NoneHolds(Unshadowed(Wildcard(t), Keys(Rules(t, from))), input) && NoneHolds(Rules(t, from), input)
    ensures r.Some? && r.value in Keys(Rules(t, from)) ==> r == FirstMatch(Rules(t, from), input)
  {
    var w := FirstMatch(Unshadowed(Wildcard(t), Keys(Rules(t, from))), input);
    if w.Some? then w else FirstMatch(Rules(t, from), input)
  }

  /**
   * Shadowing keeps the wildcard rules in their key order: filtering a group is filtering its
   * front and its back separately, one after the other.
   */
  lemma {:induction false} UnshadowedKeepsOrder<T>(front: Group<T>, back: Group<T>, explicit: seq<State>)
    ensures Unshadowed(front + back, explicit) == Unshadowed(front, explicit) + Unshadowed(back, explicit)
  {
    if front != [] {
      UnshadowedKeepsOrder(front[1..], back, explicit);
      assert (front + back)[1..] == front[1..] + back;
    } else {
      assert front + back == back;
    }
  }

  lemma {:induction false} UnshadowedKeepsAll<T>(wild: Group<T>, explicit: seq<State>)
    requires forall i :: 0 <= i < |wild| ==> wild[i].0 !in explicit
    ensures Unshadowed(wild, explicit) == wild
  {
    if wild != [] {
      UnshadowedKeepsAll(wild[1..], explicit);
    }
  }

  /** Shadowing changes nothing when no wildcard target has an explicit rule from the current state. */
  lemma ShadowedAgrees<T>(t: Table<T>, from: State, input: T)
    requires forall k :: 0 <= k < |Wildcard(t)| ==> Wildcard(t)[k].0 !in Keys(Rules(t, from))
    ensures StepShadowed(t, from, input) == Step(t, from, input)
  {
    UnshadowedKeepsAll(Wildcard(t), Keys(Rules(t, from)));
  }

  /**
   * With shadowing, a target that has an explicit rule from the current state is reached only
   * through that state's own group, with a guard that held.
   */
  lemma ShadowedTargetsComeFromExplicitRules<T>(t: Table<T>, from: State, input: T)
    ensures StepShadowed(t, from, input).Some? && StepShadowed(t, from, input).value in Keys(Rules(t, from)) ==>
      exists k: nat :: FirstHit(Rules(t, from), input, k) && Rules(t, from)[k].0 == StepShadowed(t, from, input).value
  {
  }
}
