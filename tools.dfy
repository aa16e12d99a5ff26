/** generateToolSuggestions (src/app/api/generate/route.ts): the list of
    suggested tools, one entry per subsystem, starting from the Agent Core
    entry and pushing the Memory and ML entries under their flags. */
module Tools {
  import opened Analysis

  /** One entry of the tool list: a subsystem and the tools suggested for it. */
  datatype Tool = Tool(component: string, suggestions: seq<string>)

  const AgentCoreTool := Tool("Agent Core", [
    "LangChain for agent orchestration",
    "OpenAI GPT-4 for decision making",
    "FastAPI for API endpoints"])

  const MemoryTool := Tool("Memory Subsystem", [
    "Redis for short-term memory",
    "PostgreSQL for long-term storage",
    "Vector embeddings with Pinecone"])

  const MLTool := Tool("ML Pipeline", [
    "PyTorch or TensorFlow for ML models",
    "MLflow for model registry",
    "Ray for distributed training"])

  /** The tool list: Agent Core, then Memory and ML under their flags. */
  function ToolList(needsMemory: bool, needsML: bool): seq<Tool> {
    [AgentCoreTool] + (if needsMemory then [MemoryTool] else [])
      + (if needsML then [MLTool] else [])
  }

  /** The component names of a tool list, in order. */
  function Components(tools: seq<Tool>): (names: seq<string>)
    ensures |names| == |tools| && forall i :: 0 <= i < |tools| ==> names[i] == tools[i].component
  {
    if tools == [] then [] else [tools[0].component] + Components(tools[1..])
  }

  /** The list has an entry for the named component. */
  predicate HasComponent(tools: seq<Tool>, name: string) {
    exists i :: 0 <= i < |tools| && tools[i].component == name
  }

  /** generateToolSuggestions: starts from the Agent Core entry and pushes the
      Memory and ML entries under their flags. */
  method GenerateToolSuggestions(requirements: Requirements) returns (tools: seq<Tool>)
    ensures tools == ToolList(requirements.needsMemory, requirements.needsML)
  {
    tools := [AgentCoreTool];
    if requirements.needsMemory {
      tools := tools + [MemoryTool];
    }
    if requirements.needsML {
      tools := tools + [MLTool];
    }
  }

  /** The list always starts with the Agent Core entry, has one more entry for
      each of the two flags, holds the Memory entry exactly when needsMemory
      and the ML entry exactly when needsML, and puts Memory before ML. */
  lemma ToolListShape(needsMemory: bool, needsML: bool)
    ensures var tools := ToolList(needsMemory, needsML);
      && |tools| == 1 + (if needsMemory then 1 else 0) + (if needsML then 1 else 0)
      && tools[0] == AgentCoreTool
      && (HasComponent(tools, "Memory Subsystem") <==> needsMemory)
      && (HasComponent(tools, "ML Pipeline") <==> needsML)
      && (needsMemory ==> tools[1] == MemoryTool)
      && (needsML ==> tools[|tools| - 1] == MLTool)
  {
    var tools := ToolList(needsMemory, needsML);
    if needsMemory {
      assert tools[1].component == "Memory Subsystem";
    }
    if needsML {
      assert tools[|tools| - 1].component == "ML Pipeline";
    }
    if HasComponent(tools, "Memory Subsystem") {
      var i :| 0 <= i < |tools| && tools[i].component == "Memory Subsystem";
      assert tools[i] == MemoryTool;
    }
    if HasComponent(tools, "ML Pipeline") {
      var i :| 0 <= i < |tools| && tools[i].component == "ML Pipeline";
      assert tools[i] == MLTool;
    }
  }

}
