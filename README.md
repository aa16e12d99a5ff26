# Sample-architecture generator, modelled in Dafny

This project models the keyword-driven generator behind `POST /api/generate`
in `src/app/api/generate/route.ts`. The generator turns a free-text prompt
into an *architecture*: a Mermaid flowchart (`diagram`) and a list of tool
suggestions (`tools`). It has four parts, one Dafny module each:

- `analyzePrompt` → `Analysis` (`analysis.dfy`). Five requirement flags.
  Each flag is set when the lower-cased prompt contains one of its two
  keywords: memory/storage, api/endpoint, ml/machine learning,
  nlp/language, stream/real-time.
- `generateDiagram` → `Diagram` (`diagram.dfy`). The flowchart text starts as
  the base template (the User node and the "Agent Core" subgraph). The
  "Memory Subsystem" template is appended under `needsMemory`, and the
  "ML Pipeline" template under `needsML`. The closing edge back to the user
  comes last. The method keeps the source's `diagram +=` steps.
- `generateToolSuggestions` → `Tools` (`tools.dfy`). The list starts with
  the Agent Core entry. The Memory entry is pushed under `needsMemory`, then
  the ML entry under `needsML`.
- `generateSampleArchitecture` → `Route` (`route.dfy`). Analyses the prompt
  once and builds both outputs from the same flags.

Two support modules state what the handlers' results mean:

- `Text` (`text.dfy`) models the two string operations the route calls,
  `toLowerCase` and `includes`. Its `Lines` and `Join` split text at line
  feeds and rejoin it. The route calls neither; they let the model state how
  Mermaid reads the diagram text line by line.
- `Mermaid` (`mermaid.dfy`) is the line-level reading of a flowchart. A line
  whose first word is `subgraph` opens a block. A line reading `end` closes
  one. Any other line is a statement. `Balanced` means every block is closed
  and no `end` comes without an open block.

Each template literal is kept as its lines. A `Line` is a statement, a
`subgraph "title"` opener or an `end` closer, each with its indentation in
spaces, transcribed from the template. The fragment text is a line feed
followed by the rendered lines joined with line feeds, which is exactly how
the template literals are laid out. Statement texts have a type that rules
out a line feed, a leading space, a leading `subgraph ` and a bare `end`. So
Mermaid reads every statement line as a statement, and the structure lemmas
are proved once, for all fragments.

The three handler methods (`GenerateDiagram`, `GenerateToolSuggestions`,
`GenerateSampleArchitecture`) are each proved equal to a specification
function (`DiagramText`, `ToolList`, `SampleArchitecture`). The properties
are proved about those functions.

`analyzePrompt` computes five flags, but only `needsMemory` and `needsML`
reach the output: `needsAPI`, `needsNLP` and `needsStreaming` are computed
and never read (`Route.UnusedFlagsIgnored`). The result object has only
`diagram` and `tools` (`route.ts:22-25`).

Some single inputs are proved as examples. The empty prompt raises no flag
(`Analysis.EmptyPromptNeedsNothing`) and so gets the core-only architecture
(`Route.EmptyPromptCoreOnly`).

## Model

| member | source | states |
|---|---|---|
| Text.ToLower | src/app/api/generate/route.ts:31-35 | lower-casing keeps the length and maps each character through the ASCII case mapping |
| Text.ContainsIffOccurs | src/app/api/generate/route.ts:31-35 | `includes` is substring search: the recursive search succeeds exactly when the word occurs at some index |
| Analysis.AnalyzeByOccurrence | src/app/api/generate/route.ts:28-39 | each of the five flags holds if and only if one of its two keywords occurs at some index of the lower-cased prompt |
| Analysis.KeywordRaisesFlag | src/app/api/generate/route.ts:31-35 | a keyword, written in any case and placed anywhere in the prompt, raises its flag |
| Analysis.HtmlRaisesML | src/app/api/generate/route.ts:33 | any prompt containing "html" or "HTML" sets needsML, because "ml" is a substring |
| Analysis.AnalyzeIgnoresCase | src/app/api/generate/route.ts:31-35 | prompts that differ only in letter case get identical flags |
| Analysis.AnalyzeMonotone | src/app/api/generate/route.ts:31-35 | adding text before or after a prompt never clears a flag |
| Analysis.EveryCombinationReachable | src/app/api/generate/route.ts:28-39 | analysis is total and the flags are independent: each of the 32 combinations is produced by some prompt (the proof builds a prompt from one keyword per set flag; `MemoryReached`, `APIReached`, `MLReached`, `NLPReached` and `StreamingReached` show that each keyword test fires on it exactly for its flag) |
| Mermaid.RenderReading | src/app/api/generate/route.ts:42-79 | a rendered template line is one line; Mermaid reads it as an opener exactly for `subgraph "title"` (with that title) and as a closer exactly for `end` |
| Mermaid.SectionShape | src/app/api/generate/route.ts:46-50 | statements, one `subgraph` block of statements, then statements: balanced, with one title and one `end` |
| Mermaid.BalancedCounts | src/app/api/generate/route.ts:41-82 | in balanced lines the number of `subgraph` lines equals the number of `end` lines |
| Diagram.BaseShape | src/app/api/generate/route.ts:42-51 | the base template is well formed, with the single subgraph "Agent Core" |
| Diagram.MemoryShape | src/app/api/generate/route.ts:54-63 | the memory template is well formed, with the single subgraph "Memory Subsystem" |
| Diagram.MLShape | src/app/api/generate/route.ts:67-74 | the ML template is well formed, with the single subgraph "ML Pipeline" |
| Diagram.ClosingShape | src/app/api/generate/route.ts:77-79 | the closing edge is well formed and opens no block |
| Diagram.DiagramJoin | src/app/api/generate/route.ts:41-82 | the diagram text is base ++ (memory if needsMemory) ++ (ML if needsML) ++ closing |
| Diagram.DiagramLinesOfText | src/app/api/generate/route.ts:41-82 | splitting the diagram text at its line feeds gives an empty first line, then the lines of the chosen fragments in order |
| Diagram.DiagramStructure | src/app/api/generate/route.ts:41-82 | the diagram is balanced; its subgraph titles are Agent Core, then Memory Subsystem and ML Pipeline under their flags; it has one `end` per subgraph |
| Diagram.CoreOnlyDiagram | src/app/api/generate/route.ts:41-82 | with neither flag the diagram is exactly the base template followed by the closing edge |
| Diagram.GenerateDiagram | src/app/api/generate/route.ts:41-82 | the appended text equals `DiagramText`; it starts with the base template, ends with `ActionExecutor --> \|Output\| User` and is well formed with the expected titles |
| Tools.GenerateToolSuggestions | src/app/api/generate/route.ts:84-119 | the pushed list equals `ToolList` of the two flags |
| Tools.ToolListShape | src/app/api/generate/route.ts:84-119 | the list has length 1 + [needsMemory] + [needsML]; it starts with Agent Core and its three suggestions; it has a Memory entry iff needsMemory and an ML entry iff needsML; Memory comes second and ML last |
| Route.GenerateSampleArchitecture | src/app/api/generate/route.ts:17-26 | the result equals `SampleArchitecture(prompt)`, so it is deterministic; the diagram is well formed with subgraph titles equal to the tool components |
| Route.DiagramMatchesTools | src/app/api/generate/route.ts:17-26 | for any flags, the diagram's subgraph titles and the tool list's components name the same subsystems in the same order |
| Route.NamesMatchTools | src/app/api/generate/route.ts:46-119 | each subgraph title matches the component name of the corresponding tool entry |
| Route.UnusedFlagsIgnored | src/app/api/generate/route.ts:17-26 | the output depends only on needsMemory and needsML |
| Route.SubsystemsFollowFlags | src/app/api/generate/route.ts:17-26 | Memory Subsystem is in the tools and among the diagram's titles exactly under needsMemory; ML Pipeline exactly under needsML |
| Route.SubsystemsFollowKeywords | src/app/api/generate/route.ts:17-39 | Memory Subsystem appears (tools and diagram) exactly when the lower-cased prompt contains memory/storage; ML Pipeline exactly when it contains ml/machine learning |
| Route.NoKeywordsCoreOnly | src/app/api/generate/route.ts:17-26 | a prompt that raises neither needsMemory nor needsML gets the core-only diagram and only the Agent Core tools |

## Left out

- The POST handler (`route.ts:3-15`) is not part of this model: reading the JSON body, `NextResponse`, and the HTTP 500 path when the body cannot be parsed. A missing `prompt` would make `toLowerCase` throw, which lands on that same 500 path.
- Text.ToLower covers the ASCII letters only. JavaScript's `toLowerCase` also maps non-ASCII letters and can change a string's length. The keywords are ASCII, but a non-ASCII letter that lower-cases to an ASCII one is not modelled.
- Strings are modelled as sequences of characters, not UTF-16 code units.
- The Mermaid reading is line-level only: openers, closers and their titles. Node and edge syntax is not parsed, and Mermaid itself is not part of this model.
- The model does not prove that each whole fragment text equals the source's template literal as one string. Each template line is transcribed as an indent and a text, and the fragment is those lines joined by line feeds.
- The `requirements: any` parameter is modelled as the typed `Requirements` record.
- `tools.push` on a local array is modelled as reassigning a local sequence. The array is never shared, so no aliasing is lost.
- The UI files (`page.tsx`, `ArchitectureDiagram.tsx`, `PromptForm.tsx`, `ExportOptions.tsx`) and `generateArchitecture.ts` are not part of this model.
- The comment at `route.ts:7-8` marks where an AI service would be called; no such call exists in the route, so none is modelled.
