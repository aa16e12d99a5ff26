/** generateSampleArchitecture (src/app/api/generate/route.ts): analyses the
    prompt once and builds the diagram and the tool list from the same
    requirements. */
module Route {
  import opened Text
  import opened Mermaid
  import opened Analysis
  import opened Diagram
  import opened Tools

  /** The response body: the diagram text and the tool list. */
  datatype Architecture = Architecture(diagram: string, tools: seq<Tool>)

  /** The architecture built from a set of requirements. */
  function ArchitectureFor(r: Requirements): Architecture {
    Architecture(DiagramText(r.needsMemory, r.needsML), ToolList(r.needsMemory, r.needsML))
  }

  /** The architecture built from a prompt. */
  function SampleArchitecture(prompt: string): Architecture {
    ArchitectureFor(AnalyzePrompt(prompt))
  }

  /** generateSampleArchitecture: analyses the prompt, then builds the diagram
      and the tool list from the same requirements. */
  method GenerateSampleArchitecture(prompt: string) returns (architecture: Architecture)
    ensures architecture == SampleArchitecture(prompt)
    ensures WellFormed(Lines(architecture.diagram), Components(architecture.tools))
  {
    var requirements := AnalyzePrompt(prompt);
    var diagram := GenerateDiagram(requirements);
    var tools := GenerateToolSuggestions(requirements);
    architecture := Architecture(diagram, tools);
    DiagramMatchesTools(requirements);
  }

  /** The diagram's subgraphs and the tool list name the same subsystems in
      the same order. */
  lemma DiagramMatchesTools(r: Requirements)
    ensures WellFormed(Lines(ArchitectureFor(r).diagram), Components(ArchitectureFor(r).tools))
  {
    DiagramStructure(r.needsMemory, r.needsML);
    NamesMatchTools(r.needsMemory, r.needsML);
  }

  lemma NamesMatchTools(needsMemory: bool, needsML: bool)
    ensures SubsystemNames(needsMemory, needsML) == Components(ToolList(needsMemory, needsML))
  {
    var names, tools := SubsystemNames(needsMemory, needsML), ToolList(needsMemory, needsML);
    assert |names| == |tools|;
    forall i | 0 <= i < |names|
      ensures names[i] == Components(tools)[i]
    {
    }
  }

  /** Only needsMemory and needsML reach the output: the other three flags are
      computed but never read. */
  lemma UnusedFlagsIgnored(r: Requirements, s: Requirements)
    requires r.needsMemory == s.needsMemory && r.needsML == s.needsML
    ensures ArchitectureFor(r) == ArchitectureFor(s)
  {
  }

  /** The Memory Subsystem appears, in the diagram and in the tool list,
      exactly when needsMemory is set; the ML Pipeline exactly when needsML
      is. */
  lemma SubsystemsFollowFlags(r: Requirements)
    ensures var a := ArchitectureFor(r);
      && (HasComponent(a.tools, "Memory Subsystem") <==> r.needsMemory)
      && ("Memory Subsystem" in Titles(Lines(a.diagram)) <==> r.needsMemory)
      && (HasComponent(a.tools, "ML Pipeline") <==> r.needsML)
      && ("ML Pipeline" in Titles(Lines(a.diagram)) <==> r.needsML)
  {
    ToolListShape(r.needsMemory, r.needsML);
    DiagramStructure(r.needsMemory, r.needsML);
    SubsystemNamesHold(r.needsMemory, r.needsML);
  }

  /** The Memory Subsystem appears, in the diagram and in the tool list,
      exactly when the lower-cased prompt contains "memory" or "storage"; the
      ML Pipeline exactly when it contains "ml" or "machine learning". */
  lemma SubsystemsFollowKeywords(prompt: string)
    ensures var a, p := SampleArchitecture(prompt), ToLower(prompt);
      && (HasComponent(a.tools, "Memory Subsystem") <==>
            exists i :: OccursAt(p, "memory", i) || OccursAt(p, "storage", i))
      && ("Memory Subsystem" in Titles(Lines(a.diagram)) <==>
            exists i :: OccursAt(p, "memory", i) || OccursAt(p, "storage", i))
      && (HasComponent(a.tools, "ML Pipeline") <==>
            exists i :: OccursAt(p, "ml", i) || OccursAt(p, "machine learning", i))
      && ("ML Pipeline" in Titles(Lines(a.diagram)) <==>
            exists i :: OccursAt(p, "ml", i) || OccursAt(p, "machine learning", i))
  {
    AnalyzeByOccurrence(prompt);
    SubsystemsFollowFlags(AnalyzePrompt(prompt));
  }

  /** A prompt that names none of the Memory and ML keywords, whatever else it
      asks for, gets the core-only architecture: the base fragment followed by
      the closing edge, and the Agent Core tools alone. */
  lemma NoKeywordsCoreOnly(prompt: string)
    requires !AnalyzePrompt(prompt).needsMemory && !AnalyzePrompt(prompt).needsML
    ensures SampleArchitecture(prompt).tools == [AgentCoreTool]
    ensures SampleArchitecture(prompt).diagram == BaseFragment + ClosingFragment
  {
    CoreOnlyDiagram();
    assert ToolList(false, false) == [AgentCoreTool];
  }

  /** The empty prompt gets the core-only architecture. */
  lemma EmptyPromptCoreOnly()
    ensures SampleArchitecture("").tools == [AgentCoreTool]
    ensures SampleArchitecture("").diagram == BaseFragment + ClosingFragment
  {
    EmptyPromptNeedsNothing();
    NoKeywordsCoreOnly("");
  }
}
