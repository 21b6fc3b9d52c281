# mata: a guarded finite-state machine, modelled in Dafny

mata is a small TypeScript library for guarded finite-state machines. A schema maps each source
state to an ordered group of `target: guard` rules. A symbol-keyed "from any state" group holds
wildcard rules. `next(input)` works in two phases:

1. It scans the wildcard group in key order and commits to the first target whose guard holds.
2. Failing that, it scans the current state's own group the same way.
3. Failing that, it stays put.

Committing sets the state and then calls every subscriber once, in subscription order, with the
`{from, to, input}` event.

The repository has four near-copies of this machine. The model covers all four:

- `Automata` and `Machine` in `packages/mata/src/mata.ts`;
- `Machine` in `src/mata.ts`;
- `Mech` in `src/mech.ts`;
- `Nav` in `src/nav-machine.ts`.

It also covers two pure consumers of the rule table:

- the graph derivation of the devtool visualizer (node list, strong and weak edges, `findEdgeData`);
- the Mermaid and Graphviz DOT serialisers of `packages/devtool/src/renderers.ts` and
  `packages/mata/src/visualizers.ts`.

## How the model is built

- **Rule table** (`Schema`). A schema is `Table(rules, any)`.
  - `rules` is the ordered sequence of `(from, group)` entries, in the order `for…in` and
    `Object.keys` walk them.
  - `any` is the wildcard group. `None` means the schema has no wildcard key at all.
  - A guard is `Continue`, `Never` or `Pred(test)`. The source tells the reserved guards apart by
    identity; here that is a constructor test.
- **Routing** (`Routing`). The step is a pure function `Step`, with `FirstMatch` scanning one
  group. The `for…in` loop with an early return is the method `ScanGroup`, proved equal to
  `FirstMatch`. Each class's `Next` calls `ScanGroup` once, or twice when no wildcard guard
  holds, and then commits.
- **The four copies** (`MataAutomata`, `MataMachine`, `MechMachine`, `NavMachine`). Each is a
  Dafny class with the source's mutable fields:
  - the current state;
  - the subscriber list, as a `seq` of listener ids;
  - `delivered`, the log of every listener call made so far.

  Listeners are ids and are not run. A call to a listener is a `Delivery` appended to the log.
- **Known states** (`KnownStates`). The `states` lookup is the left fold `StatesLookup` over the
  schema's string keys. A constructor whose check fails returns `Err(InvalidInitialState(state, known))`
  instead of throwing.
- **Unsubscribe** (`Subscribers`). The closure follows JavaScript's `indexOf` and `slice`,
  negative arguments included.
- **Serialisers** (`Renderers`, `NavRenderers`).
  - A guard's `toString()` text is the parameter `guardText`.
  - The output strings are built exactly as the templates build them.
  - `Text.Lines` (the split at line feeds) states what each output reads as, line by line.
- **Scenarios** (`Scenarios`). These replay the repository's tests on the model:
  - the sink and navigation tests on `src/mata.ts`;
  - the navigation test on the `Nav` class;
  - the game test on `packages/mata/src/mata.ts`.

### Where the code and its newer tests disagree, the model follows the code

**Wildcard shadowing.** The newer tests in packages/mata/src/mata.test.ts skip a wildcard rule
when the current state has its own rule for the same target. The `next` of
packages/mata/src/mata.ts:55-68 has no such check. Once a wildcard guard holds, it wins, even
over an explicit rule for that target.

- The model's `Step` follows the code. `Routing.WildcardIgnoresCurrentState` states this.
- The shadowing reading is given separately as `Routing.StepShadowed`.
- `Routing.ShadowedAgrees` proves the two readings agree whenever no wildcard target has an
  explicit rule from the current state.
- The game test (packages/mata/src/mata.test.ts:100-107) expects `stageOne` after `force(start)`
  with no lives left. The code gives `lost`:
  - `Scenarios.GameSteps` shows both readings;
  - `Scenarios.GameRun` drives the machine to `lost`.

**Which names are states.** The newer tests in packages/mata/src/mata.test.ts:228-234 also count
names that occur only as targets as states. The `states` lookup built at
packages/mata/src/mata.ts:86-89 holds the schema's string keys only.
`KnownStates.StatesAreTopKeys` states this.

packages/mata/src/nav-machine.ts is not part of this model. Its test,
packages/mata/src/nav-machine.test.ts, is replayed on `src/nav-machine.ts`.

## Model

| member | source | states |
|---|---|---|
| Schema.EntryIndex | packages/mata/src/mata.ts:62 | `machine[from]` finds the first entry keyed `from`: every earlier key differs, and the index is `|rules|` exactly when no key matches |
| Schema.TopKeys | packages/mata/src/mata.ts:86 | `Object.keys(machine)`: one key per entry, the `i`th being the `i`th entry's key; the wildcard group's symbol key is not among them |
| Schema.Wildcard | packages/mata/src/mata.ts:57 | `machine[FromAnyState]`, read as no rules when the schema has no wildcard key (a `for…in` over `undefined` runs no iteration) |
| Schema.Rules | packages/mata/src/mata.ts:62 | `machine[from]`: no rules when `from` is not a string key; otherwise the group of the first entry keyed `from` |
| Schema.RulesAt | packages/mata/src/mata.ts:62-66 | in a table without duplicate keys, the group `machine[key]` finds for the `i`th key is the `i`th group |
| Routing.FirstTrue | packages/mata/src/mata.ts:57-61 | the position returned is the first guard that holds: all guards before it fail, and it holds unless it is the end of the group |
| Routing.FirstMatch | packages/mata/src/mata.ts:62-66 | one scan yields no target exactly when no guard of the group holds, and otherwise the target of a first guard that holds |
| Routing.Calls | packages/mata/src/mata.ts:57-61 | the number of guards one scan calls: at most the group's size; the last guard called holds exactly when the scan found a target, and every guard called before it failed |
| Routing.Step | packages/mata/src/mata.ts:55-68 | the state `next` commits to: none exactly when no guard of the wildcard group or of the current state's group holds, and otherwise a target of one of those two groups |
| Routing.Probes | packages/mata/src/mata.ts:57-66 | the guards `next` calls in each phase: within each group's size, and none of the current state's guards once a wildcard guard holds |
| Routing.StepIsTwoPhaseFirstMatch | packages/mata/src/mata.ts:55-68 | `next` moves to `s` iff `s` is the first wildcard hit, or no wildcard guard holds and `s` is the first hit of the current state's group; it stays put iff no guard of either group holds |
| Routing.WildcardIgnoresCurrentState | packages/mata/src/mata.ts:57-61 | once a wildcard guard holds, every current state takes the same step, to a wildcard target; there is no shadowing, and a self-transition is possible |
| Routing.ProbesStopAtWinner | packages/mata/src/mata.ts:57-66 | guards are called lazily: the wildcard guards up to the winner and no explicit guard; or every wildcard guard and the explicit guards up to the winner; or every guard of both groups when nothing matches |
| Routing.ScanGroup | packages/mata/src/mata.ts:57-61 | the `for…in` loop with an early return yields `FirstMatch`'s target and calls exactly the guards up to the winner |
| Routing.Unshadowed | packages/mata/src/mata.test.ts:77-107 | the wildcard rules the shadowing reading keeps: exactly the wildcard rules whose target the current state has no rule of its own for |
| Routing.UnshadowedKeepsOrder | packages/mata/src/mata.test.ts:77-107 | shadowing keeps the surviving wildcard rules in key order: filtering a group is filtering its front, then its back |
| Routing.StepShadowed | packages/mata/src/mata.test.ts:100-107 | the newer tests' step: none exactly when no unshadowed wildcard guard and no own guard holds; a target the current state has its own rule for comes from the current state's own scan |
| Routing.UnshadowedKeepsAll | packages/mata/src/mata.test.ts:77-107 | shadowing removes nothing when no wildcard target has an explicit rule |
| Routing.ShadowedAgrees | packages/mata/src/mata.ts:55-68 | the shadowing reading and the code's `next` agree whenever no wildcard target has an explicit rule from the current state |
| Routing.ShadowedTargetsComeFromExplicitRules | packages/mata/src/mata.test.ts:100-107 | under shadowing, a target that has an explicit rule from the current state is reached only through that state's own group, by a guard that held |
| KnownStates.StatesLookup | packages/mata/src/mata.ts:86-89 | the `reduce` that folds the keys into the `states` lookup, one key at a time, left to right (its meaning is `StatesLookupSpec`) |
| KnownStates.LookupTruthy | packages/mata/src/mata.ts:31 | `!!states[s]` as written: holds exactly when the corrected check holds or `s` is a name the lookup does not own but inherits from `Object.prototype` |
| KnownStates.IsKnownState | packages/mata/src/mata.ts:31 | the corrected check: an own entry other than `""` (its meaning is `KnownStateIsTopKey`) |
| KnownStates.StatesLookupSpec | packages/mata/src/mata.ts:86-89 | the `reduce` fold maps exactly the folded keys, each to itself |
| KnownStates.StatesAreTopKeys | packages/mata/src/mata.ts:84-90 | `states` holds exactly the schema's string keys; the wildcard group and target-only names are not states |
| KnownStates.InheritedNamePassesCheck | packages/mata/src/mata.ts:31-33 | as written, the check `!states[s]` lets an inherited name such as `toString` through for a schema that never mentions it |
| KnownStates.KnownStateIsTopKey | packages/mata/src/mata.ts:31-33 | the corrected check accepts exactly the schema's string keys other than `""`, which the truthiness test rejects |
| KnownStates.ChecksAgreeOffPrototype | packages/mata/src/mata.ts:31 | the as-written and corrected checks differ only on names inherited from `Object.prototype` |
| Subscribers.Notify | packages/mata/src/mata.ts:43 | `forEach` calls every subscriber exactly once, in subscription order, with the same event |
| Subscribers.Dispatch | packages/mata/src/mata.ts:43 | the dispatch loop over the list as it stood when the dispatch began makes exactly `Notify`'s calls |
| Subscribers.IndexOf | packages/mata/src/mata.ts:74 | `indexOf` is -1 exactly when the listener is absent; otherwise it is the first position holding the listener |
| Subscribers.SliceIndex | packages/mata/src/mata.ts:75 | a `slice` argument resolves to a position within the array |
| Subscribers.Slice | packages/mata/src/mata.ts:75 | `s.slice(start, end)`: never longer than `s`, and the subsequence `s[start..end]` for in-range arguments |
| Subscribers.SliceFrom | packages/mata/src/mata.ts:75 | `s.slice(start)`: the suffix from `start`, or for a negative `start` the last `-start` elements |
| Subscribers.Unsubscribed | packages/mata/src/mata.ts:73-75 | the array the unsubscribe closure installs: one element shorter when the listener is subscribed, and `2n - 1` long for `n` subscribers when it is not (its contents are `UnsubscribePresent` and `UnsubscribeAbsent`) |
| Subscribers.UnsubscribePresent | packages/mata/src/mata.ts:72-76 | unsubscribing a present listener removes exactly its first occurrence and keeps the order of the rest |
| Subscribers.UnsubscribeAbsent | packages/mata/src/mata.ts:72-76 | unsubscribing an absent listener installs all but the last subscriber followed by the whole list, which grows any list of two or more |
| Subscribers.UnsubscribeTwiceDuplicates | packages/mata/src/mata.ts:72-76 | the closure is not idempotent: calling it twice on `[1, 2, 3]` for listener 1 leaves `[2, 2, 3]` |
| MataAutomata.Machine.constructor | packages/mata/src/mata.ts:84-90 | a `Machine` keeps its schema and folds the schema's string keys into the `states` lookup |
| MataAutomata.Machine.Init | packages/mata/src/mata.ts:92-94 | `init(state)` fails iff `state` is not a known state, naming it and the known states; otherwise it returns a fresh automaton that shares the schema and lookup, with the given state and no subscribers |
| MataAutomata.Automata.Seed | packages/mata/src/mata.ts:26-34 | the constructor's success path keeps the given parts, sets the state to the seed, and has no subscribers and no notification |
| MataAutomata.Automata.Create | packages/mata/src/mata.ts:26-34 | construction fails iff the seed is not a known state, naming it and the known states; otherwise it yields a fresh, seeded automaton |
| MataAutomata.Automata.Transition | packages/mata/src/mata.ts:40-45 | sets the state and returns it, keeps the subscribers, and logs one `{from, to, input}` call per subscriber, in order |
| MataAutomata.Automata.Force | packages/mata/src/mata.ts:51-53 | an unchecked move to `s` that returns `s` and notifies every subscriber once with no input |
| MataAutomata.Automata.Next | packages/mata/src/mata.ts:55-68 | commits to `Step`'s target with one event per subscriber, or changes nothing when `Step` has none; returns the state afterwards; calls the guards `Probes` counts |
| MataAutomata.Automata.Subscribe | packages/mata/src/mata.ts:70-71 | appends the listener and changes nothing else |
| MataAutomata.Automata.Unsubscribe | packages/mata/src/mata.ts:72-76 | installs `Unsubscribed(subscribers, l)` and changes nothing else |
| MataMachine.Machine.Seed | src/mata.ts:35-46 | the constructor's success path: the lookup of string keys, the state `config.init(states)`, no subscribers and no notification |
| MataMachine.Machine.Create | src/mata.ts:35-46 | construction fails iff `config.init(states)` is not a known state, naming it and the known states; otherwise it yields a fresh, seeded machine |
| MataMachine.Machine.Transition | src/mata.ts:48-53 | the public, unchecked `transition` sets the state, returns it, and logs one `{from, to, input}` call per subscriber, in order |
| MataMachine.Machine.Next | src/mata.ts:55-68 | commits to `Step`'s target with one event per subscriber, or changes nothing; returns the state afterwards |
| MataMachine.Machine.Subscribe | src/mata.ts:70-71 | appends the listener and changes nothing else |
| MataMachine.Machine.Unsubscribe | src/mata.ts:72-76 | installs `Unsubscribed(subscribers, l)` and changes nothing else |
| MechMachine.Mech.Seed | src/mech.ts:29-40 | the constructor's success path: the lookup of string keys, the state `config.init(states)`, no subscribers and no calls |
| MechMachine.Mech.Create | src/mech.ts:29-40 | construction fails iff `config.init(states)` is not a known state; otherwise it yields a fresh, seeded `Mech` |
| MechMachine.Mech.To | src/mech.ts:42-47 | sets the state unconditionally, returns it, and calls every listener once, in order, with `(previous, s, input)` |
| MechMachine.Mech.Next | src/mech.ts:49-62 | commits to `Step`'s target with one call per listener, or changes nothing; returns the state afterwards |
| MechMachine.Mech.Subscribe | src/mech.ts:64-65 | appends the listener and changes nothing else |
| MechMachine.Mech.Unsubscribe | src/mech.ts:66-70 | installs `Unsubscribed(subscribers, l)` and changes nothing else |
| NavMachine.Nav.constructor | src/nav-machine.ts:12-19 | takes any initial state without a check; its `for…in` loop maps each string key of the schema to itself |
| NavMachine.Nav.To | src/nav-machine.ts:21-25 | sets the state unconditionally and returns it |
| NavMachine.Nav.Next | src/nav-machine.ts:27-41 | moves to `Step`'s target, or stays put; returns the state afterwards; calls the guards `Probes` counts |
| Graph.Nodes | packages/devtool/src/visualizer.ts:93-99 | the node list: string keys, then targets, then wildcard targets, duplicates dropped (its meaning is `NodesSpec`) |
| Graph.StrongEdges | packages/devtool/src/visualizer.ts:109-121 | the strong edges, group by group in key order; every one is of kind `Strong` (its meaning is `StrongEdgesIff`) |
| Graph.WeakEdges | packages/devtool/src/visualizer.ts:123-137 | the weak edges, state by state in key order; every one is of kind `Weak` (its meaning is `WeakEdgesIff`, with the `machine[from][to]` read through `Object.prototype`) |
| Graph.Edges | packages/devtool/src/visualizer.ts:139-142 | `data.edges`: every strong edge comes before every weak edge |
| Graph.EdgesInTableOrder | packages/devtool/src/visualizer.ts:109-137 | edges follow table order: the edges of the first `i` entries come before those of the rest, for strong and weak edges alike |
| Graph.DedupIntoSpec | packages/devtool/src/visualizer.ts:94-99 | the dedup fold keeps its accumulator, then appends each new name once, in first-occurrence order, with no duplicates |
| Graph.DedupIntoPrefix | packages/devtool/src/visualizer.ts:94-99 | the fold only appends to its accumulator |
| Graph.DedupIntoMembers | packages/devtool/src/visualizer.ts:94-99 | the fold's result holds exactly the names of the accumulator and the input |
| Graph.DedupIntoDistinct | packages/devtool/src/visualizer.ts:94-99 | the fold adds no duplicate |
| Graph.DedupIntoOrder | packages/devtool/src/visualizer.ts:94-99 | the names the fold appends follow their first occurrence in the input |
| Graph.NodesSpec | packages/devtool/src/visualizer.ts:93-99 | the node list has no duplicates, names exactly the string keys, targets and wildcard targets, and keeps first-occurrence order |
| Graph.StrongFromIff | packages/devtool/src/visualizer.ts:110-120 | the strong edges of one state are exactly its rules other than `Route.Never` |
| Graph.StrongEdgesIff | packages/devtool/src/visualizer.ts:109-121 | strong edges are exactly the explicit rules other than `Route.Never`, self-loops included |
| Graph.WeakFromIff | packages/devtool/src/visualizer.ts:124-136 | the weak edges of one state go to exactly the wildcard targets other than itself for which `machine[from][to]` is falsy: it has no rule for them and they are not inherited from `Object.prototype` |
| Graph.WeakEdgesIff | packages/devtool/src/visualizer.ts:123-137 | weak edges are exactly the pairs (state, wildcard target) where the state has no rule for the target, the target is not a name inherited from `Object.prototype`, and the state is not the target |
| Graph.InheritedTargetGetsNoWeakEdge | packages/devtool/src/visualizer.ts:125 | a wildcard target `toString` gets no weak edge from a state with no rules, where a plain name `b` does |
| Graph.StrongWeakDisjoint | packages/devtool/src/visualizer.ts:109-137 | no pair is joined by both a strong and a weak edge, and a `Route.Never` rule yields no edge of either kind |
| Graph.EdgesWithinNodes | packages/devtool/src/visualizer.ts:139-142 | both ends of every edge are listed nodes |
| Graph.NoWildcardNoWeakEdges | packages/devtool/src/visualizer.ts:123-137 | without a wildcard group there are only strong edges, and the node list has no wildcard part |
| Graph.StrongFromDistinct | packages/devtool/src/visualizer.ts:110-120 | one state's strong edges join distinct pairs when its group has distinct keys |
| Graph.WeakFromDistinct | packages/devtool/src/visualizer.ts:124-136 | one state's weak edges join distinct pairs when the wildcard targets are distinct |
| Graph.EdgesDistinct | packages/devtool/src/visualizer.ts:109-137 | in a table without duplicate keys, no two strong edges and no two weak edges join the same pair |
| Graph.FindEdgeData | packages/devtool/src/visualizer.ts:220-222 | `findEdgeData` finds nothing iff no edge joins the pair, and otherwise the first edge that joins it |
| Graph.AtMostOneEdge | packages/devtool/src/visualizer.ts:220-222 | in a table without duplicate keys at most one edge joins any pair, so `findEdgeData` finds the only one when there is one |
| Entries.PerRule | packages/devtool/src/renderers.ts:15-21 | `flatten(Object.keys(machine).map(from => Object.keys(machine[from]).map(...)))`: one string per explicit rule, in key order (its meaning is `PerRuleAt` and `PerRuleCount`) |
| Entries.PerWildcard | packages/devtool/src/renderers.ts:22-32 | the strings of each wildcard rule, concatenated in key order (its meaning is `PerWildcardAt` and `PerWildcardCount`) |
| Entries.PerRuleAt | packages/devtool/src/renderers.ts:15-21 | the flattened per-rule entries hold one entry per explicit rule; rule `j` of group `i` sits after the rules of the earlier groups |
| Entries.PerRuleCount | packages/devtool/src/renderers.ts:15-21 | one entry per explicit rule |
| Entries.PerWildcardAt | packages/devtool/src/renderers.ts:22-32 | when each wildcard rule yields `n` entries, entry `m` of rule `k` sits at `k * n + m` |
| Entries.PerWildcardCount | packages/devtool/src/renderers.ts:22-32 | `n` entries per wildcard rule |
| Renderers.Effective | packages/devtool/src/renderers.ts:8-13 | the effective config: the given options as they are, and the default (`collapseWildcards` false) when none are given |
| Renderers.Marked | packages/devtool/src/renderers.ts:18-19 | how Mermaid writes a node: `active[name]` for the current state, the bare name otherwise (its meaning is `ActiveMarking`) |
| Renderers.MermaidEntries | packages/devtool/src/renderers.ts:15-32 | the Mermaid entries: one per explicit rule, then the wildcard entries (their positions and texts are `ExplicitEntryAt`, `ExpandedMermaidEntryAt` and `CollapsedWildcardEntryAt`) |
| Renderers.DotEntries | packages/devtool/src/renderers.ts:42-53 | the DOT entries: one per explicit rule, then the wildcard entries (their positions and texts are `ExplicitEntryAt`, `ExpandedDotEntryAt` and `CollapsedWildcardEntryAt`) |
| Renderers.ToMermaid | packages/devtool/src/renderers.ts:12-37 | `toMermaid(nav, options)`: the template around the joined entries (what it reads as is `MermaidLines`) |
| Renderers.ToDot | packages/devtool/src/renderers.ts:39-57 | `toDot(nav, options)`: the template around the joined entries (what it reads as is `DotLines`) |
| Renderers.ActiveMarking | packages/devtool/src/renderers.ts:18-19 | a name is written `active[name]` exactly when it is the current state, and as itself otherwise |
| Renderers.EntryCount | packages/devtool/src/renderers.ts:15-32 | both renderers write one entry per explicit rule plus, per wildcard rule, one entry when collapsed and one per state otherwise |
| Renderers.ExplicitEntryAt | packages/devtool/src/renderers.ts:15-21 | rule `j` of group `i` is drawn at the same position by both renderers, labelled `' '` for `Continue` and with the guard's text otherwise |
| Renderers.ExpandedWildcardEntryAt | packages/devtool/src/renderers.ts:27-31 | without collapsing, wildcard rule `k` is drawn from state `m` after the explicit entries; the entry is `''` exactly when the state is the rule's own target |
| Renderers.ExpandedDotEntryAt | packages/devtool/src/renderers.ts:50-52 | in DOT, the expanded wildcard entry is `from -> to;`, or `''` exactly when `from` is the target |
| Renderers.ExpandedMermaidEntryAt | packages/devtool/src/renderers.ts:27-31 | in Mermaid, the expanded wildcard entry is a dashed edge labelled with the guard's text, or `''` exactly when `from` is the target |
| Renderers.CollapsedWildcardEntryAt | packages/devtool/src/renderers.ts:23-26 | collapsed, wildcard rule `k` is one entry from the `*` node; in DOT it has no semicolon |
| Renderers.DotTerminators | packages/devtool/src/renderers.ts:42-53 | every explicit DOT entry ends in `;`; expanded wildcard entries are `''` or end in `;`; collapsed ones are `"*" -> target` |
| Renderers.MermaidEntriesOneLine | packages/devtool/src/renderers.ts:15-32 | with one-line names and guard texts, every Mermaid entry is one line |
| Renderers.MermaidLines | packages/devtool/src/renderers.ts:33-36 | read line by line, `toMermaid` is `graph TD`, one tab-indented line per entry (or a bare tab when there are none), the style line, and an empty line |
| Renderers.DotLines | packages/devtool/src/renderers.ts:54-56 | read line by line, `toDot` is `digraph workflow {`, one tab-indented line per entry, and `}` |
| Text.Join | packages/devtool/src/renderers.ts:34 | `xs.join(sep)`: the strings of `xs` with `sep` between neighbours |
| Text.Lines | packages/devtool/src/renderers.ts:33-36 | the lines a text reads as, split at its line feeds; never empty |
| Text.LinesOfIndentedJoin | packages/devtool/src/renderers.ts:34 | `'\t' + entries.join('\n\t')` reads as one indented line per one-line entry |
| Text.Framed | packages/devtool/src/renderers.ts:33-36 | a header, a line feed, a joined block, a line feed and a footer read as the header, the block's lines and the footer's lines |
| NavRenderers.ToMermaid | packages/mata/src/visualizers.ts:7-22 | `toMermaid(nav)`: an error exactly when the schema has no wildcard group (`Object.keys(undefined)` throws); otherwise the template around the explicit edges and the `global` subgraph (what it reads as is `MermaidLines`) |
| NavRenderers.ToDot | packages/mata/src/visualizers.ts:24-37 | `toDot(nav)`: an error exactly when the schema has no wildcard group (`Object.keys(undefined)` throws); otherwise the template with the wildcard lines before the explicit ones (what it reads as is `DotLines`) |
| NavRenderers.GlobalSubgraph | packages/mata/src/visualizers.ts:18-21 | the `subgraph global … end` block of `toMermaid` (what it reads as is `GlobalSubgraphLines`) |
| NavRenderers.EntryAt | packages/mata/src/visualizers.ts:8-12 | one Mermaid and one DOT line per explicit rule, at the same position, with the source's exact text |
| NavRenderers.GlobalSubgraphLines | packages/mata/src/visualizers.ts:18-20 | the `subgraph global` block reads as its opening line, one line per wildcard rule indented by two tabs, and `end` |
| NavRenderers.MermaidLines | packages/mata/src/visualizers.ts:7-22 | `toMermaid` throws iff the schema has no wildcard group; otherwise it reads as the header, the explicit edges, then the `global` subgraph of wildcard edges |
| NavRenderers.DotLines | packages/mata/src/visualizers.ts:24-37 | `toDot` throws iff the schema has no wildcard group; otherwise every wildcard line comes before every explicit line |
| Scenarios.SinkGroups | src/mata.test.ts:46-61 | the sink schema's `machine[from]` for each of its four states |
| Scenarios.SinkWildcard | src/mata.test.ts:47-49 | the sink's wildcard fires exactly while the tap runs |
| Scenarios.SinkTapRunning | src/mata.test.ts:47-49 | while the tap runs, every state goes to `running`, `running` included |
| Scenarios.SinkRunning | src/mata.test.ts:51-54 | with the tap closed, `running` drains when it can and fills up when it cannot |
| Scenarios.SinkFull | src/mata.test.ts:55-57 | with the tap closed, `full` drains once it can |
| Scenarios.SinkDraining | src/mata.test.ts:58-60 | with the tap closed, `draining` empties on the next call |
| Scenarios.SinkEmpty | src/mata.test.ts:50 | with the tap closed, `empty` stays empty |
| Scenarios.SinkSteps | src/mata.test.ts:75-95 | each `next` call of the sink test moves to the state the test expects |
| Scenarios.SinkStart | src/mata.test.ts:42-45 | the sink starts in `empty`, which passes the constructor's check |
| Scenarios.SinkRun | src/mata.test.ts:64-95 | on `Machine`, construction and the seven `next` calls visit exactly the states the test expects |
| Scenarios.NavWildcard | src/mata.test.ts:162-166 | the navigation wildcard group, in key order: forced tutorial, sign-out, game over |
| Scenarios.NavGlobalWins | src/mata.test.ts:162-166 | when a wildcard guard holds, it decides the step whatever the current screen |
| Scenarios.NavWelcome | src/mata.test.ts:137-140 | `welcome` leads to the tutorial before any game is played, and to the game after |
| Scenarios.NavTutorial | src/mata.test.ts:141-143 | `tutorial` leads to the game once a game has been played |
| Scenarios.NavGame | src/mata.test.ts:144-146 | `game` always enters `stageOne` |
| Scenarios.NavStageOne | src/mata.test.ts:147-149 | `stageOne` always leads to `stageTwo` |
| Scenarios.NavStageTwo | src/mata.test.ts:150-152 | `stageTwo` always leads to `stageThree` |
| Scenarios.NavStageThree | src/mata.test.ts:153-155 | `stageThree` shows the view once the game is finished |
| Scenarios.NavView | src/mata.test.ts:156-158 | `view` leads back to the game once the game is no longer finished |
| Scenarios.NavSteps | src/mata.test.ts:170-201 | each `next` call of the navigation test moves to the state the test expects, including game over and a forced tutorial through the wildcard |
| Scenarios.NavStart | src/mata.test.ts:132-135 | the navigation flow starts in `welcome`, which passes the constructor's check |
| Scenarios.NavRun | src/mata.test.ts:132-201 | on `Machine`, construction, eight `next` calls, `transition('welcome')` and three more calls visit the states the test expects |
| Scenarios.NavCalls | src/mata.test.ts:170-201 | the calls of the navigation test, from `welcome`, visit the states the test expects |
| Scenarios.NavRunOnNav | packages/mata/src/nav-machine.test.ts:33-100 | the same test on `Nav`, with `to('welcome')`, visits the states the test expects |
| Scenarios.GameNoLives | packages/mata/src/mata.test.ts:95-97 | with no lives left, every state goes to `lost`, because the wildcard is tried first |
| Scenarios.GameStart | packages/mata/src/mata.test.ts:78-81 | with lives left, `start` goes to `stageOne`; its `Never` rule is never taken |
| Scenarios.GameStartShadowed | packages/mata/src/mata.test.ts:100-107 | under shadowing, `start` goes to `stageOne` whatever the input |
| Scenarios.GameStageOneShadowed | packages/mata/src/mata.test.ts:82-84 | `stageOne` has no rule for `lost`, so shadowing leaves its step alone |
| Scenarios.GameSteps | packages/mata/src/mata.test.ts:100-107 | the game test's calls under both readings: the code sends `start` to `lost` with no lives left, where the test and the shadowing reading give `stageOne` |
| Scenarios.GameRun | packages/mata/src/mata.test.ts:100-107 | on `Automata`, two `next` calls, `force(start)` and a third call visit `start, stageOne, lost, start, lost` |

## Left out

- `console.log` in `Nav.to` (src/nav-machine.ts:22) is output only, so it is not modelled.
- Running the listeners is not modelled: a listener is an id and a call is a logged `Delivery`. A
  listener that calls `force`, `next` or the unsubscribe closure during a dispatch is out of
  scope.
- Guard bodies are arbitrary closures. A guard is an opaque predicate `Pred(test)`.
- Guard labels come from `Function.prototype.toString()`. A label is the `guardText` parameter.
- JavaScript key enumeration is not modelled. That covers integer-like keys enumerating first,
  inherited enumerable keys and symbol keys. Each group is an explicit ordered sequence, and an
  object literal is assumed to hold each key once where a lemma needs it (`Schema.WellFormed`).
- The error message text is not modelled. The error carries the state and the set of known
  states, not their formatting.
- The `state` and `getState()` getters of `Automata` just read `current`, so they are not modelled
  separately.
- In `src/mata.ts` and `src/mech.ts`, `config.init` is a function from the lookup to a state. A
  lookup miss (`states.empty` when there is no `empty` key) reads as `""`, the falsy value that
  `undefined` stands in for.
- `Object.assign({}, defaultConfig, options)` is modelled as "the given config, or the default".
  An `options` object with an explicitly `undefined` field is not modelled.
- `Renderers.MermaidLines` needs every state name and guard text to be free of line feeds. A name
  containing a line feed would split an entry across lines.
- `Renderers.DotLines` needs every state name to be free of line feeds, for the same reason.
- `NavRenderers.MermaidLines` needs every state name and guard text to be free of line feeds, for
  the same reason.
- `NavRenderers.DotLines` needs every state name to be free of line feeds, for the same reason.
- The devtool renderers take an automaton. The model takes its schema (`nav.type.machine`) and its
  current state (`nav.state`). `Object.keys(nav.states)` is the schema's string keys.
- The d3/dagre rendering, `fixArrows`, `zoomToFit` and the animation of
  packages/devtool/src/visualizer.ts are UI and floating point, so they are not modelled.
- packages/devtool/src/panel.ts, packages/devtool/src/inspector.ts, packages/devtool/src/devtool.ts
  and packages/website are UI, a demo driver and build configuration. They are not modelled.
- src/visualizers.ts uses an undeclared `Mata` identifier, so it does not denote a well-defined
  program. It is not modelled; packages/devtool/src/renderers.ts is its well-formed twin.
- The newer API (`Schematic`, `createAutomaton`, `Route`) that packages/mata/src/mata.test.ts
  targets is not among the modelled files:
  - its wildcard shadowing is given as `Routing.StepShadowed`;
  - its rule that target-only names become states is not modelled;
  - `Route.Never` is the guard `Never`.
- MataAutomata.Machine.Init: decides with the corrected check `KnownStates.IsKnownState`, so it
  returns an error for a name inherited from `Object.prototype` (such as `toString`), which the
  truthiness check at packages/mata/src/mata.ts:31 accepts; see "## Findings".
- MataAutomata.Automata.Seed: requires the corrected check, so it excludes the inherited names that
  packages/mata/src/mata.ts:31 lets through.
- MataAutomata.Automata.Create: returns an error for inherited `Object.prototype` names, which the
  constructor at packages/mata/src/mata.ts:31 accepts.
- MataMachine.Machine.Seed: requires the corrected check, so it excludes the inherited names that
  src/mata.ts:43 lets through.
- MataMachine.Machine.Create: returns an error when `config.init(states)` is an inherited
  `Object.prototype` name, which src/mata.ts:43 accepts.
- MechMachine.Mech.Seed: requires the corrected check, so it excludes the inherited names that
  src/mech.ts:37 lets through.
- MechMachine.Mech.Create: returns an error when `config.init(states)` is an inherited
  `Object.prototype` name, which src/mech.ts:37 accepts.

## Findings

| source | as written | input that shows it | evidently intended | confidence | as-written member | corrected member |
|---|---|---|---|---|---|---|
| packages/mata/src/mata.ts:31 | `!this.states[this._state]` reads through the prototype chain, so a name inherited from `Object.prototype` counts as a known state | schema `{ empty: {}, running: {} }` with initial state `"toString"`: the check passes, and the automaton starts in a state the schema never mentions | only the schema's own string keys are known states | not executed | KnownStates.InheritedNamePassesCheck | KnownStates.KnownStateIsTopKey |

The same check appears at src/mata.ts:43 and src/mech.ts:37. All three constructors in the model
use the corrected check `KnownStates.IsKnownState`. That check still rejects `""`, as the
truthiness test does.
