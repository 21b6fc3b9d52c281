/**
 * packages/mata/src/visualizers.ts: `toMermaid` and `toDot` for a `Nav` navigator. Explicit rules
 * are drawn once each, labelled with the guard's source text in Mermaid; wildcard rules are drawn
 * once each from a `*` node, inside a `global` subgraph in Mermaid and before the explicit rules
 * in DOT. Both read `nav.machine[Nav.any]` unguarded, so a schema without the wildcard group makes
 * them throw.
 */
module NavRenderers {
  import opened Results
  import opened Schema
  import opened Text
  import opened Entries

  /** `Object.keys(undefined)` throws when the schema has no `Nav.any` group. */
  datatype RenderError = NoWildcardGroup

  /** An explicit rule in Mermaid: `from --"guard"--> to`. */
  function MermaidEdgeOf<T>(guardText: Guard<T> -> string): (State, Rule<T>) -> string
  {
    (from, rule: Rule<T>) => from + " --\"" + guardText(rule.1) + "\"--> " + rule.0
  }

  /** A wildcard rule in Mermaid: `* --"guard"--> to`. */
  function MermaidAny<T>(wild: Group<T>, guardText: Guard<T> -> string): seq<string>
  {
    seq(|wild|, k requires 0 <= k < |wild| => "* --\"" + guardText(wild[k].1) + "\"--> " + wild[k].0)
  }

  /** An explicit rule in DOT, both names quoted. */
  function DotEdgeOf<T>(): (State, Rule<T>) -> string
  {
    (from, rule: Rule<T>) => "\"" + from + "\" -> \"" + rule.0 + "\";"
  }

  /** A wildcard rule in DOT, from the quoted `*` node. */
  function DotAny<T>(wild: Group<T>): seq<string>
  {
    seq(|wild|, k requires 0 <= k < |wild| => "\"*\" -> \"" + wild[k].0 + "\";")
  }

  const Indent := "\t"
  const SubIndent := "\t\t"
  const MermaidHeader := "graph TD"
  const SubgraphOpen := "\tsubgraph global"
  const SubgraphClose := "\tend"
  const DotHeader := "digraph navflow {"

  /** The `subgraph global` block of `toMermaid`: the wildcard entries indented by two tabs, then `end` and a line feed. */
  function GlobalSubgraph(anys: seq<string>): string
  {
    SubgraphOpen + "\n" + SubIndent + Join(anys, "\n" + SubIndent) + "\n" + (SubgraphClose + "\n")
  }

  /** `toMermaid(nav)`: the template `graph TD\n\t${edges}\n\tsubgraph global\n\t\t${anyedges}\n\tend\n`. */
  function ToMermaid<T>(t: Table<T>, guardText: Guard<T> -> string): (r: Result<string, RenderError>)
    ensures r.Err? <==> t.any.None?
  {
    match t.any
    case None => Err(NoWildcardGroup)
    case Some(wild) =>
      var edges := PerRule(t.rules, MermaidEdgeOf(guardText));
      Ok(MermaidHeader + "\n" + Indent + Join(edges, "\n" + Indent) + "\n" + GlobalSubgraph(MermaidAny(wild, guardText)))
  }

  /** `toDot(nav)`: the template `digraph navflow {\n\t${anyedges}\n\t${edges}\n}`. */
  function ToDot<T>(t: Table<T>): (r: Result<string, RenderError>)
    ensures r.Err? <==> t.any.None?
  {
    match t.any
    case None => Err(NoWildcardGroup)
    case Some(wild) =>
      var edges := PerRule(t.rules, DotEdgeOf<T>());
      Ok(DotHeader + "\n" + Indent + Join(DotAny(wild), "\n" + Indent) + "\n"
         + (Indent + Join(edges, "\n" + Indent) + "\n" + "}"))
  }

  /**
   * Read line by line, `toMermaid` is the header, one tab-indented line per explicit rule, the
   * `subgraph global` line, one line per wildcard rule indented by two tabs, `end`, and the empty
   * line after the final line feed; an empty list leaves one bare indent. It throws exactly when
   * the schema has no wildcard group.
   */
  lemma MermaidLines<T>(t: Table<T>, guardText: Guard<T> -> string)
    requires OneLineNames(t)
    requires forall g :: OneLine(guardText(g))
    ensures ToMermaid(t, guardText).Err? <==> t.any.None?
    ensures ToMermaid(t, guardText).Ok? ==>
      Lines(ToMermaid(t, guardText).value)
        == [MermaidHeader] + Block(PerRule(t.rules, MermaidEdgeOf(guardText)), Indent)
         + [SubgraphOpen] + Block(MermaidAny(Wildcard(t), guardText), SubIndent) + [SubgraphClose, ""]
  {
    if t.any.Some? {
      var edges := PerRule(t.rules, MermaidEdgeOf(guardText));
      var anys := MermaidAny(Wildcard(t), guardText);
      MermaidOneLine(t, guardText);
      Framed(MermaidHeader, edges, Indent, GlobalSubgraph(anys));
      GlobalSubgraphLines(anys);
    }
  }

  /** With one-line names and guard texts, every Mermaid entry, explicit or wildcard, is one line. */
  lemma MermaidOneLine<T>(t: Table<T>, guardText: Guard<T> -> string)
    requires OneLineNames(t)
    requires forall g :: OneLine(guardText(g))
    ensures forall p :: 0 <= p < |PerRule(t.rules, MermaidEdgeOf(guardText))| ==> OneLine(PerRule(t.rules, MermaidEdgeOf(guardText))[p])
    ensures forall k :: 0 <= k < |MermaidAny(Wildcard(t), guardText)| ==> OneLine(MermaidAny(Wildcard(t), guardText)[k])
  {
    PerRuleAll(t.rules, MermaidEdgeOf(guardText), OneLine);
  }

  /** The subgraph block reads as its opening line, one line per entry (or a bare indent), `end`, and an empty line. */
  lemma GlobalSubgraphLines(anys: seq<string>)
    requires forall k :: 0 <= k < |anys| ==> OneLine(anys[k])
    ensures Lines(GlobalSubgraph(anys)) == [SubgraphOpen] + Block(anys, SubIndent) + [SubgraphClose, ""]
  {
    Framed(SubgraphOpen, anys, SubIndent, SubgraphClose + "\n");
    TerminatedLine(SubgraphClose);
  }

  /**
   * Read line by line, `toDot` is the header, one line per wildcard rule, then one line per
   * explicit rule, both tab-indented, and `}`: every wildcard line comes before every explicit
   * line. It throws exactly when the schema has no wildcard group.
   */
  lemma DotLines<T>(t: Table<T>)
    requires OneLineNames(t)
    ensures ToDot(t).Err? <==> t.any.None?
    ensures ToDot(t).Ok? ==>
      Lines(ToDot(t).value) == [DotHeader] + Block(DotAny(Wildcard(t)), Indent) + Block(PerRule(t.rules, DotEdgeOf<T>()), Indent) + ["}"]
  {
    if t.any.Some? {
      var edges := PerRule(t.rules, DotEdgeOf<T>());
      DotOneLine(t);
      Framed(DotHeader, DotAny(Wildcard(t)), Indent, Indent + Join(edges, "\n" + Indent) + "\n" + "}");
      BlockThen(edges, Indent, "}");
      LinesOfOneLine("}");
    }
  }

  /** With one-line names, every DOT entry, explicit or wildcard, is one line. */
  lemma DotOneLine<T>(t: Table<T>)
    requires OneLineNames(t)
    ensures forall p :: 0 <= p < |PerRule(t.rules, DotEdgeOf<T>())| ==> OneLine(PerRule(t.rules, DotEdgeOf<T>())[p])
    ensures forall k :: 0 <= k < |DotAny(Wildcard(t))| ==> OneLine(DotAny(Wildcard(t))[k])
  {
    PerRuleAll(t.rules, DotEdgeOf<T>(), OneLine);
  }

  /** One entry per explicit rule and one per wildcard rule; rule `j` of group `i` sits after the rules of the groups before it. */
  lemma EntryAt<T>(t: Table<T>, guardText: Guard<T> -> string, i: nat, j: nat)
    requires i < |t.rules| && j < |t.rules[i].1|
    ensures |PerRule(t.rules, MermaidEdgeOf(guardText))| == |PerRule(t.rules, DotEdgeOf<T>())| == RuleCount(t.rules)
    ensures RuleCount(t.rules[..i]) + j < RuleCount(t.rules)
    ensures PerRule(t.rules, MermaidEdgeOf(guardText))[RuleCount(t.rules[..i]) + j]
         == t.rules[i].0 + " --\"" + guardText(t.rules[i].1[j].1) + "\"--> " + t.rules[i].1[j].0
    ensures PerRule(t.rules, DotEdgeOf<T>())[RuleCount(t.rules[..i]) + j]
         == "\"" + t.rules[i].0 + "\" -> \"" + t.rules[i].1[j].0 + "\";"
  {
    PerRuleAt(t.rules, MermaidEdgeOf(guardText), i, j);
    PerRuleAt(t.rules, DotEdgeOf<T>(), i, j);
  }
}
