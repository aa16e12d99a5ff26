/** generateDiagram (src/app/api/generate/route.ts): the Mermaid flowchart
    built from fixed template fragments, the Memory and ML fragments appended
    under their flags. Each fragment is kept as its lines; its text is a line
    feed followed by the lines joined with line feeds, which is exactly how
    each template literal in the source is laid out. */
module Diagram {
  import opened Text
  import opened Mermaid
  import opened Analysis

  // The statements of the fragments, one constant per line of text.

  const GraphHeader: StatementText := "graph TB"
  const UserToAgent: StatementText := "User((User)) --> |Input| Agent"
  const AgentNode: StatementText := "Agent[Agent]"
  const ExecutorNode: StatementText := "ActionExecutor[Action Executor]"
  const AgentToExecutor: StatementText := "Agent --> ActionExecutor"
  const ManagerNode: StatementText := "MemoryManager[Memory Manager]"
  const ShortTermNode: StatementText := "STM[Short-Term Memory]"
  const LongTermNode: StatementText := "LTM[Long-Term Memory]"
  const ManagerToShortTerm: StatementText := "MemoryManager --> STM"
  const ManagerToLongTerm: StatementText := "MemoryManager --> LTM"
  const AgentWithManager: StatementText := "Agent <--> MemoryManager"
  const ProcessorNode: StatementText := "MLProcessor[ML Processor]"
  const RegistryNode: StatementText := "ModelRegistry[Model Registry]"
  const ProcessorToRegistry: StatementText := "MLProcessor --> ModelRegistry"
  const AgentWithProcessor: StatementText := "Agent <--> MLProcessor"
  const ExecutorToUser: StatementText := "ActionExecutor --> |Output| User"

  const CoreTitle: Title := "Agent Core"
  const MemoryTitle: Title := "Memory Subsystem"
  const MLTitle: Title := "ML Pipeline"

  const BaseBefore: seq<Line> := [Stmt(0, GraphHeader), Stmt(4, UserToAgent), Stmt(0, "")]
  const BaseBody: seq<Line> := [Stmt(8, AgentNode), Stmt(8, ExecutorNode), Stmt(8, AgentToExecutor)]
  const BaseAfter: seq<Line> := [Stmt(2, "")]

  /** The opening fragment: the User node and the "Agent Core" subgraph. */
  const BaseLines: seq<string> := RenderAll(Section(BaseBefore, 4, CoreTitle, BaseBody, BaseAfter))

  const MemoryBody: seq<Line> := [
    Stmt(8, ManagerNode), Stmt(8, ShortTermNode), Stmt(8, LongTermNode),
    Stmt(8, ManagerToShortTerm), Stmt(8, ManagerToLongTerm)]
  const MemoryAfter: seq<Line> := [Stmt(4, AgentWithManager), Stmt(4, "")]

  /** The "Memory Subsystem" fragment and its edge from the agent. */
  const MemoryLines: seq<string> := RenderAll(Section([], 4, MemoryTitle, MemoryBody, MemoryAfter))

  const MLBody: seq<Line> := [Stmt(8, ProcessorNode), Stmt(8, RegistryNode), Stmt(8, ProcessorToRegistry)]
  const MLAfter: seq<Line> := [Stmt(4, AgentWithProcessor), Stmt(4, "")]

  /** The "ML Pipeline" fragment and its edge from the agent. */
  const MLLines: seq<string> := RenderAll(Section([], 4, MLTitle, MLBody, MLAfter))

  /** The closing edge back to the user. */
  const ClosingLayout: seq<Line> := [Stmt(4, ExecutorToUser), Stmt(2, "")]
  const ClosingLines: seq<string> := RenderAll(ClosingLayout)

  /** Each fragment's text: a template literal that begins with a line feed. */
  const BaseFragment: string := Fragment(BaseLines)
  const MemoryFragment: string := Fragment(MemoryLines)
  const MLFragment: string := Fragment(MLLines)
  const ClosingFragment: string := Fragment(ClosingLines)

  /** Lines Mermaid reads on their own: balanced blocks with the given
      titles, and no line feed inside a line. */
  predicate WellFormed(ls: seq<string>, titles: seq<string>) {
    SingleLines(ls) && Balanced(ls) && Titles(ls) == titles
  }

  /** Well-formed runs of lines stay well formed when written one after the
      other, and their titles add up. */
  lemma WellFormedAppend(a: seq<string>, ta: seq<string>, b: seq<string>, tb: seq<string>)
    requires WellFormed(a, ta) && WellFormed(b, tb)
    ensures WellFormed(a + b, ta + tb)
  {
    SingleLinesAppend(a, b);
    BalancedAppend(a, b);
    TitlesAppend(a, b);
  }

  /** Each fragment is well formed on its own: one balanced subgraph with its
      title, or, for the closing edge, no block at all. */
  lemma BaseShape()
    ensures WellFormed(BaseLines, [CoreTitle])
  {
    SectionShape(BaseBefore, 4, CoreTitle, BaseBody, BaseAfter);
    RenderedSingle(Section(BaseBefore, 4, CoreTitle, BaseBody, BaseAfter));
  }

  lemma MemoryShape()
    ensures WellFormed(MemoryLines, [MemoryTitle])
  {
    SectionShape([], 4, MemoryTitle, MemoryBody, MemoryAfter);
    RenderedSingle(Section([], 4, MemoryTitle, MemoryBody, MemoryAfter));
  }

  lemma MLShape()
    ensures WellFormed(MLLines, [MLTitle])
  {
    SectionShape([], 4, MLTitle, MLBody, MLAfter);
    RenderedSingle(Section([], 4, MLTitle, MLBody, MLAfter));
  }

  lemma ClosingShape()
    ensures WellFormed(ClosingLines, [])
  {
    StatementsNesting(ClosingLayout, 0);
    RenderedSingle(ClosingLayout);
  }

  /** The lines of the generated diagram after its leading line feed: the base
      fragment, the optional fragments in flag order, the closing edge. */
  function DiagramLines(needsMemory: bool, needsML: bool): seq<string> {
    BaseLines + When(needsMemory, MemoryLines) + When(needsML, MLLines) + ClosingLines
  }

  /** The text of the generated diagram. */
  function DiagramText(needsMemory: bool, needsML: bool): string {
    Fragment(DiagramLines(needsMemory, needsML))
  }

  /** The subgraph titles a diagram is expected to carry, in order. */
  function SubsystemNames(needsMemory: bool, needsML: bool): seq<string> {
    [CoreTitle] + (if needsMemory then [MemoryTitle] else [])
      + (if needsML then [MLTitle] else [])
  }

  /** The optional subsystems are named exactly under their flags. */
  lemma SubsystemNamesHold(needsMemory: bool, needsML: bool)
    ensures MemoryTitle in SubsystemNames(needsMemory, needsML) <==> needsMemory
    ensures MLTitle in SubsystemNames(needsMemory, needsML) <==> needsML
  {
    assert CoreTitle != MemoryTitle && CoreTitle != MLTitle && MemoryTitle != MLTitle;
  }

  /** Assembling fragments: when every fragment is well formed, so is the
      whole, and its titles are the fragments' titles in order. */
  lemma AssembleStructure(a: seq<string>, m: seq<string>, p: seq<string>, c: seq<string>,
                          mem: bool, ml: bool, ta: seq<string>, tm: seq<string>, tp: seq<string>)
    requires |a| >= 1
    requires WellFormed(a, ta) && WellFormed(m, tm) && WellFormed(p, tp) && WellFormed(c, [])
    ensures WellFormed(Lines(Fragment(a + When(mem, m) + When(ml, p) + c)),
      ta + (if mem then tm else []) + (if ml then tp else []))
  {
    var m', p' := When(mem, m), When(ml, p);
    var tm', tp' := (if mem then tm else []), (if ml then tp else []);
    assert WellFormed([], []);
    assert WellFormed([""], []);
    assert WellFormed(m', tm');
    assert WellFormed(p', tp');
    WellFormedAppend(a, ta, m', tm');
    WellFormedAppend(a + m', ta + tm', p', tp');
    WellFormedAppend(a + m' + p', ta + tm' + tp', c, []);
    WellFormedAppend([""], [], a + m' + p' + c, ta + tm' + tp' + []);
    FragmentLines(a + m' + p' + c);
    assert ta + tm' + tp' + [] == ta + tm' + tp';
  }

  /** The diagram text is the fragments' texts concatenated in order. */
  lemma DiagramJoin(needsMemory: bool, needsML: bool)
    ensures DiagramText(needsMemory, needsML) ==
      BaseFragment + (if needsMemory then MemoryFragment else "")
        + (if needsML then MLFragment else "") + ClosingFragment
  {
    BaseShape();
    MemoryShape();
    MLShape();
    ClosingShape();
    AssembleText(BaseLines, MemoryLines, MLLines, ClosingLines, needsMemory, needsML);
  }

  lemma Ends(b: string, m: string, p: string, c: string)
    ensures var d := b + m + p + c; |b| + |c| <= |d| && d[..|b|] == b && d[|d| - |c|..] == c
  {
    assert b + m + p + c == b + (m + p) + c;
  }

  lemma DropEmpty(b: string, c: string)
    ensures b + "" + "" + c == b + c
  {
  }

  /** Without the two optional fragments the diagram is the base fragment
      followed by the closing edge. */
  lemma CoreOnlyDiagram()
    ensures DiagramText(false, false) == BaseFragment + ClosingFragment
  {
    DiagramJoin(false, false);
    DropEmpty(BaseFragment, ClosingFragment);
  }

  /** Mermaid's reading of the diagram: properly nested blocks, one
      `subgraph` per subsystem in flag order, each closed by its own `end`. */
  lemma DiagramStructure(needsMemory: bool, needsML: bool)
    ensures WellFormed(Lines(DiagramText(needsMemory, needsML)), SubsystemNames(needsMemory, needsML))
    ensures Closers(Lines(DiagramText(needsMemory, needsML))) == |SubsystemNames(needsMemory, needsML)|
  {
    BaseShape();
    MemoryShape();
    MLShape();
    ClosingShape();
    AssembleStructure(BaseLines, MemoryLines, MLLines, ClosingLines, needsMemory, needsML,
      [CoreTitle], [MemoryTitle], [MLTitle]);
    BalancedCounts(Lines(DiagramText(needsMemory, needsML)));
  }

  /** Splitting the diagram text at its line feeds gives an empty first line
      and then the diagram's lines. */
  lemma DiagramLinesOfText(needsMemory: bool, needsML: bool)
    ensures Lines(DiagramText(needsMemory, needsML)) == [""] + DiagramLines(needsMemory, needsML)
  {
    BaseShape();
    MemoryShape();
    MLShape();
    ClosingShape();
    var m, p := When(needsMemory, MemoryLines), When(needsML, MLLines);
    SingleLinesAppend(BaseLines, m);
    SingleLinesAppend(BaseLines + m, p);
    SingleLinesAppend(BaseLines + m + p, ClosingLines);
    FragmentLines(DiagramLines(needsMemory, needsML));
  }

  /** generateDiagram: starts from the base fragment, appends the Memory and
      ML fragments under their flags, and closes with the edge back to the
      user. */
  method GenerateDiagram(requirements: Requirements) returns (diagram: string)
    ensures diagram == DiagramText(requirements.needsMemory, requirements.needsML)
    ensures Lines(diagram) == [""] + DiagramLines(requirements.needsMemory, requirements.needsML)
    ensures |BaseFragment| + |ClosingFragment| <= |diagram|
    ensures diagram[..|BaseFragment|] == BaseFragment
    ensures diagram[|diagram| - |ClosingFragment|..] == ClosingFragment
    ensures WellFormed(Lines(diagram), SubsystemNames(requirements.needsMemory, requirements.needsML))
  {
    var mem, ml := requirements.needsMemory, requirements.needsML;
    var base, memory, pipeline, closing := BaseFragment, MemoryFragment, MLFragment, ClosingFragment;
    diagram := base;
    if mem {
      diagram := diagram + memory;
    } else {
      assert diagram == base + "";
    }
    if ml {
      diagram := diagram + pipeline;
    } else {
      assert diagram == base + (if mem then memory else "") + "";
    }
    diagram := diagram + closing;
    Ends(base, if mem then memory else "", if ml then pipeline else "", closing);
    DiagramJoin(mem, ml);
    DiagramLinesOfText(mem, ml);
    DiagramStructure(mem, ml);
  }
}
