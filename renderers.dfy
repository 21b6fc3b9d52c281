/**
 * packages/devtool/src/renderers.ts: `toMermaid` and `toDot` draw an automaton's schema as text.
 * Explicit rules come first, in key order; then each wildcard rule, either once from a `*` node
 * (`collapseWildcards`) or once per state of the automaton, with the state's own self-loop left as
 * an empty entry. Mermaid also marks the current state as the `active` node.
 *
 * The automaton is given by its schema (`nav.type.machine`) and its current state (`nav.state`);
 * `Object.keys(nav.states)` is the schema's string keys, `TopKeys`, since the lookup is built from
 * them. A guard's source text (`toString()`) is the parameter `guardText`.
 */
module Renderers {
  import opened Results
  import opened Schema
  import opened Text
  import opened Entries

  datatype Config = Config(collapseWildcards: bool)

  const DefaultConfig := Config(false)

  /** `Object.assign({}, defaultConfig, options)`, where an omitted `options` is `defaultConfig`. */
  function Effective(options: Option<Config>): (c: Config)
    ensures options.None? ==> !c.collapseWildcards
    ensures options.Some? ==> c == options.value
  {
    if options.Some? then options.value else DefaultConfig
  }

  /** How Mermaid writes a state: the current one as `active[name]`, the others by name. */
  function Marked(n: State, active: State): string
  {
    if n == active then "active[" + n + "]" else n
  }

  /** An explicit rule in Mermaid: a `Continue` guard is labelled with a blank. */
  function MermaidEdge<T>(from: State, rule: Rule<T>, active: State, guardText: Guard<T> -> string): string
  {
    Marked(from, active) + " --\"" + (if rule.1.Continue? then " " else guardText(rule.1)) + "\"--> " + Marked(rule.0, active)
  }

  /** The Mermaid entries of one wildcard rule. */
  function MermaidWildcard<T>(rule: Rule<T>, states: seq<State>, active: State, guardText: Guard<T> -> string, collapse: bool): seq<string>
  {
    if collapse then ["=((*)) --\"" + guardText(rule.1) + "\"--> " + Marked(rule.0, active)]
    else seq(|states|, m requires 0 <= m < |states| => MermaidDashed(states[m], rule, active, guardText))
  }

  /** A wildcard rule drawn from one state as a dashed edge, or nothing from the rule's own target. */
  function MermaidDashed<T>(from: State, rule: Rule<T>, active: State, guardText: Guard<T> -> string): string
  {
    if from != rule.0 then Marked(from, active) + " -.\"" + guardText(rule.1) + "\".-> " + Marked(rule.0, active) else ""
  }

  function MermaidEdgeOf<T>(active: State, guardText: Guard<T> -> string): (State, Rule<T>) -> string
  {
    (from, rule) => MermaidEdge(from, rule, active, guardText)
  }

  function MermaidWildcardOf<T>(states: seq<State>, active: State, guardText: Guard<T> -> string, collapse: bool): Rule<T> -> seq<string>
  {
    rule => MermaidWildcard(rule, states, active, guardText, collapse)
  }

  function MermaidEntries<T>(t: Table<T>, active: State, config: Config, guardText: Guard<T> -> string): seq<string>
  {
    PerRule(t.rules, MermaidEdgeOf(active, guardText))
    + PerWildcard(Wildcard(t), MermaidWildcardOf(TopKeys(t), active, guardText, config.collapseWildcards))
  }

  /** Entries are written one per line, each indented by a tab. */
  const Indent := "\t"

  const MermaidHeader := "graph TD"

  /** The line after the Mermaid entries, which gives the `active` node its colour. */
  const MermaidStyle := "\tstyle active fill:#FFE46F"

  /** `toMermaid(nav, options)`: the template `graph TD\n\t${entries.join('\n\t')}\n\tstyle active fill:#FFE46F\n`. */
  function ToMermaid<T>(t: Table<T>, active: State, options: Option<Config>, guardText: Guard<T> -> string): string
  {
    MermaidHeader + "\n" + Indent + Join(MermaidEntries(t, active, Effective(options), guardText), "\n" + Indent) + "\n" + (MermaidStyle + "\n")
  }

  /** An explicit rule in DOT. */
  function DotEdge(from: State, to: State): string
  {
    from + " -> " + to + ";"
  }

  /** The DOT entries of one wildcard rule; the collapsed form has no semicolon. */
  function DotWildcard<T>(rule: Rule<T>, states: seq<State>, collapse: bool): seq<string>
  {
    if collapse then ["\"*\" -> " + rule.0]
    else seq(|states|, m requires 0 <= m < |states| => if states[m] != rule.0 then DotEdge(states[m], rule.0) else "")
  }

  function DotEdgeOf<T>(): (State, Rule<T>) -> string
  {
    (from, rule: Rule<T>) => DotEdge(from, rule.0)
  }

  function DotWildcardOf<T>(states: seq<State>, collapse: bool): Rule<T> -> seq<string>
  {
    rule => DotWildcard(rule, states, collapse)
  }

  function DotEntries<T>(t: Table<T>, config: Config): seq<string>
  {
    PerRule(t.rules, DotEdgeOf())
    + PerWildcard(Wildcard(t), DotWildcardOf(TopKeys(t), config.collapseWildcards))
  }

  const DotHeader := "digraph workflow {"

  /** `toDot(nav, options)`: the template `digraph workflow {\n\t${entries.join('\n\t')}\n}`. */
  function ToDot<T>(t: Table<T>, options: Option<Config>): string
  {
    DotHeader + "\n" + Indent + Join(DotEntries(t, Effective(options)), "\n" + Indent) + "\n" + "}"
  }

  /** Exactly the current state is drawn as the `active` node. */
  lemma ActiveMarking(n: State, active: State)
    ensures Marked(n, active) == "active[" + n + "]" <==> n == active
    ensures n != active ==> Marked(n, active) == n
  {
    if n != active {
      assert |"active[" + n + "]"| > |n|;
    }
  }

  /** The number of wildcard entries per wildcard rule. */
  function Fanout<T>(t: Table<T>, config: Config): nat
  {
    if config.collapseWildcards then 1 else |TopKeys(t)|
  }

  /**
   * Both renderers write one entry per explicit rule and, per wildcard rule, one entry when
   * collapsed and one per state otherwise.
   */
  lemma EntryCount<T>(t: Table<T>, active: State, config: Config, guardText: Guard<T> -> string)
    ensures |MermaidEntries(t, active, config, guardText)| == RuleCount(t.rules) + |Wildcard(t)| * Fanout(t, config)
    ensures |DotEntries(t, config)| == RuleCount(t.rules) + |Wildcard(t)| * Fanout(t, config)
  {
    PerRuleCount(t.rules, MermaidEdgeOf(active, guardText));
    PerRuleCount(t.rules, DotEdgeOf<T>());
    PerWildcardCount(Wildcard(t), MermaidWildcardOf(TopKeys(t), active, guardText, config.collapseWildcards), Fanout(t, config));
    PerWildcardCount(Wildcard(t), DotWildcardOf<T>(TopKeys(t), config.collapseWildcards), Fanout(t, config));
  }

  /** Rule `j` of group `i` is drawn at the same position by both renderers, after the rules of the groups before it. */
  lemma ExplicitEntryAt<T>(t: Table<T>, active: State, config: Config, guardText: Guard<T> -> string, i: nat, j: nat)
    requires i < |t.rules| && j < |t.rules[i].1|
    ensures RuleCount(t.rules[..i]) + j < RuleCount(t.rules)
    ensures RuleCount(t.rules[..i]) + j < |MermaidEntries(t, active, config, guardText)|
    ensures RuleCount(t.rules[..i]) + j < |DotEntries(t, config)|
    ensures MermaidEntries(t, active, config, guardText)[RuleCount(t.rules[..i]) + j]
         == MermaidEdge(t.rules[i].0, t.rules[i].1[j], active, guardText)
    ensures DotEntries(t, config)[RuleCount(t.rules[..i]) + j] == DotEdge(t.rules[i].0, t.rules[i].1[j].0)
  {
    EntryCount(t, active, config, guardText);
    PerRuleAt(t.rules, MermaidEdgeOf(active, guardText), i, j);
    PerRuleAt(t.rules, DotEdgeOf<T>(), i, j);
  }

  /**
   * Without collapsing, wildcard rule `k` is drawn from state `m` after every explicit rule and the
   * earlier wildcard rules; the entry is empty exactly when the state is the rule's own target.
   */
  lemma ExpandedWildcardEntryAt<T>(t: Table<T>, active: State, config: Config, guardText: Guard<T> -> string, k: nat, m: nat)
    requires !config.collapseWildcards
    requires k < |Wildcard(t)| && m < |TopKeys(t)|
    ensures RuleCount(t.rules) + k * |TopKeys(t)| + m < |DotEntries(t, config)|
    ensures RuleCount(t.rules) + k * |TopKeys(t)| + m < |MermaidEntries(t, active, config, guardText)|
    ensures var e := DotEntries(t, config)[RuleCount(t.rules) + k * |TopKeys(t)| + m];
      && (e == "" <==> TopKeys(t)[m] == Wildcard(t)[k].0)
      && (TopKeys(t)[m] != Wildcard(t)[k].0 ==> e == DotEdge(TopKeys(t)[m], Wildcard(t)[k].0))
    ensures var e := MermaidEntries(t, active, config, guardText)[RuleCount(t.rules) + k * |TopKeys(t)| + m];
      && (e == "" <==> TopKeys(t)[m] == Wildcard(t)[k].0)
      && (TopKeys(t)[m] != Wildcard(t)[k].0 ==>
            e == Marked(TopKeys(t)[m], active) + " -.\"" + guardText(Wildcard(t)[k].1) + "\".-> " + Marked(Wildcard(t)[k].0, active))
  {
    ExpandedDotEntryAt(t, config, k, m);
    ExpandedMermaidEntryAt(t, active, config, guardText, k, m);
  }

  lemma ExpandedDotEntryAt<T>(t: Table<T>, config: Config, k: nat, m: nat)
    requires !config.collapseWildcards
    requires k < |Wildcard(t)| && m < |TopKeys(t)|
    ensures RuleCount(t.rules) + k * |TopKeys(t)| + m < |DotEntries(t, config)|
    ensures var e := DotEntries(t, config)[RuleCount(t.rules) + k * |TopKeys(t)| + m];
      && (e == "" <==> TopKeys(t)[m] == Wildcard(t)[k].0)
      && (TopKeys(t)[m] != Wildcard(t)[k].0 ==> e == DotEdge(TopKeys(t)[m], Wildcard(t)[k].0))
  {
    PerRuleCount(t.rules, DotEdgeOf<T>());
    PerWildcardAt(Wildcard(t), DotWildcardOf<T>(TopKeys(t), false), |TopKeys(t)|, k, m);
  }

  lemma ExpandedMermaidEntryAt<T>(t: Table<T>, active: State, config: Config, guardText: Guard<T> -> string, k: nat, m: nat)
    requires !config.collapseWildcards
    requires k < |Wildcard(t)| && m < |TopKeys(t)|
    ensures RuleCount(t.rules) + k * |TopKeys(t)| + m < |MermaidEntries(t, active, config, guardText)|
    ensures var e := MermaidEntries(t, active, config, guardText)[RuleCount(t.rules) + k * |TopKeys(t)| + m];
      && (e == "" <==> TopKeys(t)[m] == Wildcard(t)[k].0)
      && (TopKeys(t)[m] != Wildcard(t)[k].0 ==>
            e == Marked(TopKeys(t)[m], active) + " -.\"" + guardText(Wildcard(t)[k].1) + "\".-> " + Marked(Wildcard(t)[k].0, active))
  {
    PerRuleCount(t.rules, MermaidEdgeOf(active, guardText));
    PerWildcardAt(Wildcard(t), MermaidWildcardOf(TopKeys(t), active, guardText, false), |TopKeys(t)|, k, m);
  }

  /** Collapsed, wildcard rule `k` is one entry from the `*` node after every explicit rule; in DOT it has no semicolon. */
  lemma CollapsedWildcardEntryAt<T>(t: Table<T>, active: State, config: Config, guardText: Guard<T> -> string, k: nat)
    requires config.collapseWildcards
    requires k < |Wildcard(t)|
    ensures RuleCount(t.rules) + k < |DotEntries(t, config)|
    ensures RuleCount(t.rules) + k < |MermaidEntries(t, active, config, guardText)|
    ensures DotEntries(t, config)[RuleCount(t.rules) + k] == "\"*\" -> " + Wildcard(t)[k].0
    ensures MermaidEntries(t, active, config, guardText)[RuleCount(t.rules) + k]
         == "=((*)) --\"" + guardText(Wildcard(t)[k].1) + "\"--> " + Marked(Wildcard(t)[k].0, active)
  {
    PerRuleCount(t.rules, MermaidEdgeOf(active, guardText));
    PerRuleCount(t.rules, DotEdgeOf<T>());
    PerWildcardAt(Wildcard(t), MermaidWildcardOf(TopKeys(t), active, guardText, true), 1, k, 0);
    PerWildcardAt(Wildcard(t), DotWildcardOf<T>(TopKeys(t), true), 1, k, 0);
  }

  predicate EndsInSemicolon(s: string)
  {
    |s| > 0 && s[|s| - 1] == ';'
  }

  /**
   * In DOT every explicit entry ends in `;`. Without collapsing, every wildcard entry is empty or
   * ends in `;`; collapsed, every wildcard entry is `"*" -> ` and a wildcard target, with no
   * semicolon added.
   */
  lemma DotTerminators<T>(t: Table<T>, config: Config)
    ensures RuleCount(t.rules) <= |DotEntries(t, config)|
    ensures forall p :: 0 <= p < RuleCount(t.rules) ==> EndsInSemicolon(DotEntries(t, config)[p])
    ensures !config.collapseWildcards ==>
      forall p :: RuleCount(t.rules) <= p < |DotEntries(t, config)| ==>
        DotEntries(t, config)[p] == "" || EndsInSemicolon(DotEntries(t, config)[p])
    ensures config.collapseWildcards ==>
      forall p :: RuleCount(t.rules) <= p < |DotEntries(t, config)| ==>
        exists k :: 0 <= k < |Wildcard(t)| && DotEntries(t, config)[p] == "\"*\" -> " + Wildcard(t)[k].0
  {
    var explicit := PerRule(t.rules, DotEdgeOf<T>());
    var wild := PerWildcard(Wildcard(t), DotWildcardOf<T>(TopKeys(t), config.collapseWildcards));
    PerRuleCount(t.rules, DotEdgeOf<T>());
    PerRuleAll(t.rules, DotEdgeOf<T>(), EndsInSemicolon);
    assert DotEntries(t, config) == explicit + wild;
    if config.collapseWildcards {
      var star := s => exists k :: 0 <= k < |Wildcard(t)| && s == "\"*\" -> " + Wildcard(t)[k].0;
      PerWildcardAll(Wildcard(t), DotWildcardOf<T>(TopKeys(t), true), star);
    } else {
      PerWildcardAll(Wildcard(t), DotWildcardOf<T>(TopKeys(t), false), s => s == "" || EndsInSemicolon(s));
    }
  }

  lemma TopKeysOneLine<T>(t: Table<T>)
    requires OneLineNames(t)
    ensures forall m :: 0 <= m < |TopKeys(t)| ==> OneLine(TopKeys(t)[m])
  {
    forall m | 0 <= m < |TopKeys(t)| ensures OneLine(TopKeys(t)[m]) {
      assert TopKeys(t)[m] == t.rules[m].0;
    }
  }

  /** With one-line names and guard texts, every Mermaid entry is one line. */
  lemma MermaidEntriesOneLine<T>(t: Table<T>, active: State, config: Config, guardText: Guard<T> -> string)
    requires OneLineNames(t)
    requires forall g :: OneLine(guardText(g))
    ensures forall p :: 0 <= p < |MermaidEntries(t, active, config, guardText)| ==> OneLine(MermaidEntries(t, active, config, guardText)[p])
  {
    MermaidExplicitOneLine(t, active, guardText);
    MermaidWildcardOneLine(t, active, config, guardText);
    assert MermaidEntries(t, active, config, guardText)
        == PerRule(t.rules, MermaidEdgeOf(active, guardText))
         + PerWildcard(Wildcard(t), MermaidWildcardOf(TopKeys(t), active, guardText, config.collapseWildcards));
  }

  lemma MermaidExplicitOneLine<T>(t: Table<T>, active: State, guardText: Guard<T> -> string)
    requires OneLineNames(t)
    requires forall g :: OneLine(guardText(g))
    ensures forall p :: 0 <= p < |PerRule(t.rules, MermaidEdgeOf(active, guardText))| ==> OneLine(PerRule(t.rules, MermaidEdgeOf(active, guardText))[p])
  {
    forall i, j | 0 <= i < |t.rules| && 0 <= j < |t.rules[i].1|
      ensures OneLine(MermaidEdgeOf(active, guardText)(t.rules[i].0, t.rules[i].1[j]))
    {
      MarkedOneLine(t.rules[i].0, active);
      MarkedOneLine(t.rules[i].1[j].0, active);
    }
    PerRuleAll(t.rules, MermaidEdgeOf(active, guardText), OneLine);
  }

  lemma MermaidWildcardOneLine<T>(t: Table<T>, active: State, config: Config, guardText: Guard<T> -> string)
    requires OneLineNames(t)
    requires forall g :: OneLine(guardText(g))
    ensures var f := MermaidWildcardOf(TopKeys(t), active, guardText, config.collapseWildcards);
      forall p :: 0 <= p < |PerWildcard(Wildcard(t), f)| ==> OneLine(PerWildcard(Wildcard(t), f)[p])
  {
    var f := MermaidWildcardOf(TopKeys(t), active, guardText, config.collapseWildcards);
    TopKeysOneLine(t);
    forall k, m | 0 <= k < |Wildcard(t)| && 0 <= m < |f(Wildcard(t)[k])| ensures OneLine(f(Wildcard(t)[k])[m]) {
      MermaidWildcardRuleOneLine(Wildcard(t)[k], TopKeys(t), active, guardText, config.collapseWildcards, m);
    }
    PerWildcardAll(Wildcard(t), f, OneLine);
  }

  lemma MermaidWildcardRuleOneLine<T>(rule: Rule<T>, states: seq<State>, active: State, guardText: Guard<T> -> string, collapse: bool, m: nat)
    requires OneLine(rule.0) && OneLine(guardText(rule.1))
    requires forall i :: 0 <= i < |states| ==> OneLine(states[i])
    requires m < |MermaidWildcard(rule, states, active, guardText, collapse)|
    ensures OneLine(MermaidWildcard(rule, states, active, guardText, collapse)[m])
  {
    MarkedOneLine(rule.0, active);
    if !collapse {
      MarkedOneLine(states[m], active);
    }
  }

  lemma MarkedOneLine(n: State, active: State)
    requires OneLine(n)
    ensures OneLine(Marked(n, active))
  {
  }

  /** The fixed lines of both renderers. */
  lemma FrameLines()
    ensures OneLine(MermaidHeader) && OneLine(DotHeader) && OneLine(Indent)
    ensures Lines(MermaidStyle + "\n") == [MermaidStyle, ""]
    ensures Lines("}") == ["}"]
  {
    TerminatedLine(MermaidStyle);
    LinesOfOneLine("}");
  }

  /** With one-line names, every DOT entry is one line. */
  lemma DotEntriesOneLine<T>(t: Table<T>, config: Config)
    requires OneLineNames(t)
    ensures forall p :: 0 <= p < |DotEntries(t, config)| ==> OneLine(DotEntries(t, config)[p])
  {
    var explicit := PerRule(t.rules, DotEdgeOf<T>());
    var wild := PerWildcard(Wildcard(t), DotWildcardOf<T>(TopKeys(t), config.collapseWildcards));
    PerRuleAll(t.rules, DotEdgeOf<T>(), OneLine);
    TopKeysOneLine(t);
    PerWildcardAll(Wildcard(t), DotWildcardOf<T>(TopKeys(t), config.collapseWildcards), OneLine);
    assert DotEntries(t, config) == explicit + wild;
  }

  /**
   * Read line by line, `toMermaid` is the `graph TD` header, one tab-indented line per entry (a
   * lone tab when there is none), the `style active` line, and the empty line after the final
   * line feed.
   */
  lemma MermaidLines<T>(t: Table<T>, active: State, options: Option<Config>, guardText: Guard<T> -> string)
    requires OneLineNames(t)
    requires forall g :: OneLine(guardText(g))
    ensures Lines(ToMermaid(t, active, options, guardText))
         == [MermaidHeader] + Block(MermaidEntries(t, active, Effective(options), guardText), Indent) + [MermaidStyle, ""]
  {
    MermaidEntriesOneLine(t, active, Effective(options), guardText);
    FrameLines();
    Framed(MermaidHeader, MermaidEntries(t, active, Effective(options), guardText), Indent, MermaidStyle + "\n");
  }

  /** Read line by line, `toDot` is the `digraph workflow {` header, one tab-indented line per entry, and `}`. */
  lemma DotLines<T>(t: Table<T>, options: Option<Config>)
    requires OneLineNames(t)
    ensures Lines(ToDot(t, options)) == [DotHeader] + Block(DotEntries(t, Effective(options)), Indent) + ["}"]
  {
    DotEntriesOneLine(t, Effective(options));
    FrameLines();
    Framed(DotHeader, DotEntries(t, Effective(options)), Indent, "}");
  }
}
