# Deep research workflow: a Dafny model of its state machine

The system answers a free-text query with a LangGraph workflow: a state record
(`GraphState`) is threaded through graph nodes. `start` logs the start of the
workflow. `research` runs a web search (only when no results are stored yet),
asks a "researcher" language-model chain for notes and derives a source list.
`synthesis` and `answer` ask two more chains for a synthesis and a final answer.
A router (`route_next_step`) reads the stage tag after each stage and names the
next node. The entry point `run_deep_research` builds a fresh state, runs the
graph and projects the final state into a report: the query, the final answer,
the sources, and the `workflow_path` (the contents of the assistant messages).

The model has three layers:

- `types.dfy` (module `Types`): the values. These are the stage tag
  `AgentState`, log messages, raw search records whose fields may be missing,
  sources, the inputs of each chain, and `Oracles`. `Oracles` holds the web
  search and the three chains as opaque functions whose replies are a value or
  a raised error.
- `stages.dfy`, `engine.dfy`, `pipeline.dfy` (modules `Stages`, `Engine`,
  `Pipeline`): the specification. Each node is a function from a snapshot of
  the state record to the next snapshot. The router and the fixed edges are
  functions. `Run` walks the graph over node names. `DeepResearch` is the whole
  pipeline. The lemmas state what each node writes, the search guard, how
  sources are derived, the traversal actually taken, and the report.
- `graph.dfy` (module `Graph`): the code's own form. `GraphState` is a class
  whose node methods update its fields in place. `DeriveSources` is the loop
  that builds the source list. `Invoke` is the engine, a loop over node names
  driven by the fixed edges and the router. `RunDeepResearch` is the entry
  point. Each method's `ensures` ties the object's new state, or its result, to
  the specification function.

The source itself shows the intended order of the stages: the tag values
RESEARCH, SYNTHESIS, ANSWER, COMPLETE (main.py:22-26), the four registered
nodes (main.py:283-286), and the answer prompt's `{synthesized_research}`
variable (main.py:150), which is meant to be filled by the synthesis stage from
the research stage's `{research_notes}` (main.py:114). What the code does
differs from that order:

- Each stage sets the tag to the stage to enter next, and the router then maps
  that tag one stage further. Research sets SYNTHESIS, and the router sends
  SYNTHESIS to `answer`. So the run is start → research → answer → END, and the
  synthesis node never runs (`Engine.RunAsWritten`, `Engine.SynthesisNeverRuns`, `Engine.RunIgnoresSynthesizer`).
- The drafter chain is therefore asked with no synthesized research.
- `workflow_path` has two entries, not three.
- The tag goes from SYNTHESIS straight to COMPLETE.
- The router's ANSWER branch names `"complete"`, which is not a registered
  node. The model stops such a run with `UnknownNode`; the branch is never
  reached, because synthesis, the only stage that sets ANSWER, never runs.
- The research node stores the search results and logs the search before
  calling the researcher chain. If that chain raises, the stored results and
  the log entry stay, while the sources are not derived: the node is not atomic
  (`Stages.ResearchPartialUpdate`). The error still reaches the caller, and the
  state is then discarded.
- The synthesis and answer prompts read the notes and the synthesized
  research (main.py:114, 150), but the code does not check that they are
  set. It passes whatever the fields hold, `None` included, and the model
  passes the `Option` values as they are.

The model follows the code in each of these points.

## Model

| member | source | states |
|---|---|---|
| Types.Get | main.py:196-198 | a lookup with a default gives the record's value when the key is present and the default when it is missing |
| Types.Truthy | main.py:173 | the stored search results are falsy exactly when they are None or the empty list |
| Graph.GraphState.constructor | main.py:48-57 | a fresh state holds the query, no search results, no notes, an empty source list, no synthesis, no answer, an empty log and the tag RESEARCH |
| Graph.GraphState.StartWorkflow | main.py:257-264 | the start node appends one system message naming the query; the new state is the start step of the old one |
| Graph.GraphState.RunResearch | main.py:170-209 | the research node's new state and outcome are the research step of the old state, including the search guard, the partial update when the researcher chain raises, and the derived sources |
| Graph.GraphState.RunSynthesis | main.py:213-231 | the synthesis node's new state and outcome are the synthesis step of the old state |
| Graph.GraphState.RunAnswerDrafting | main.py:235-253 | the answer node's new state and outcome are the answer step of the old state |
| Graph.GraphState.RunNode | main.py:283-286 | calling a registered node by name has exactly the effect of that node's stage |
| Graph.GraphState.Invoke | main.py:282-292 | the loop over node names leaves the state, outcome and visited nodes that the graph run specifies: entry at start, the fixed edge to research, the router after every other node, a stop at END, at an error, or at an unregistered name |
| Graph.DeriveSources | main.py:192-200 | one source per search record, same order; each field is the record's field or "Unknown Title", "Unknown URL", "Unknown Date" when it is missing |
| Graph.RunDeepResearch | main.py:295-313 | a fresh state, one graph run and the report equal the pipeline specification, so every property of DeepResearch holds of the entry point |
| Stages.Initial | main.py:48-57 | a fresh state carries the query, has no results worth reusing (so research will search), and starts at RESEARCH |
| Stages.SourceOf | main.py:194-198 | each field of a source is the record's field when present, else its placeholder |
| Stages.SourcesFor | main.py:192-200 | the derived list has one source per record, entry i built from record i |
| Stages.StartStep | main.py:257-264 | start appends exactly one system message after the old log and keeps the query |
| Stages.ResearchStep | main.py:170-209 | a research stage that finishes leaves the tag SYNTHESIS |
| Stages.ResearchAfterSearch | main.py:182-209 | the part of the research stage after the search guard also leaves the tag SYNTHESIS when it finishes |
| Stages.SynthesisStep | main.py:213-231 | a synthesis stage that finishes leaves the tag ANSWER |
| Stages.AnswerStep | main.py:235-253 | an answer stage that finishes leaves the tag COMPLETE |
| Stages.InitialState | main.py:48-57 | the initial snapshot has the input query, no results, no sources, an empty log and the tag RESEARCH |
| Stages.SourcesForPlaceholders | main.py:192-200 | the derived list has one entry per record; entry i takes each field of record i, or the placeholder when it is missing |
| Stages.SourcesForConcat | main.py:192-200 | derivation distributes over concatenation, so the sources keep the records' order |
| Stages.StartWritesOnlyTheLog | main.py:257-264 | start appends exactly one system message, "Starting research workflow for: " and the query, and changes no other field |
| Stages.ResearchSearchGuard | main.py:173-180 | research searches and logs "Performed initial search for: " and the query only when the stored results are None or empty; stored non-empty results are kept, no search message is added, and the step is the same whatever the search tool would reply; a failing search leaves the state unchanged |
| Stages.ResearchWritesOwnFields | main.py:182-209 | a finished research stage stores results, notes and the sources derived from the results (same length), sets SYNTHESIS, and leaves query, synthesis and answer alone |
| Stages.ResearchPartialUpdate | main.py:173-190 | when the researcher chain raises after a fresh search, the results and the search message remain and nothing else changes |
| Stages.SynthesisWritesOwnFields | main.py:213-231 | synthesis writes only the synthesized research, one assistant message appended to the log, and the tag ANSWER; on failure nothing changes |
| Stages.AnswerWritesOwnFields | main.py:235-253 | answer drafting writes only the final answer, one assistant message appended to the log, and the tag COMPLETE; on failure nothing changes |
| Engine.RouteNextStep | main.py:268-278 | the router ends the run exactly on COMPLETE and never names start or research |
| Engine.NextAfter | main.py:287-291 | the edge out of start is fixed; no edge leads back to start; the run ends only after a node other than start leaves COMPLETE |
| Engine.Run | main.py:282-292 | a graph run runs only registered nodes, visits at most as many nodes as the entry's rank, never writes the query, and when it enters a node and finishes it ends at COMPLETE |
| Engine.Dispatch | main.py:283-286 | each registered node, once it finishes, leaves a tag whose outgoing edge goes to a node of lower rank, so every run terminates |
| Engine.RouterTargets | main.py:268-286 | the router is total on the tag; it ends the run exactly on COMPLETE and names a registered node exactly on RESEARCH and SYNTHESIS; ANSWER names the unregistered "complete" |
| Engine.RouteAfterEachStage | main.py:268-291 | applied after the stage has advanced the tag, the router sends research to answer, synthesis to "complete" and answer to END |
| Engine.RunAsWritten | main.py:282-291 | from any state the run is start, research, then answer if research finished, then END; the answer node finds the tag SYNTHESIS |
| Engine.SynthesisNeverRuns | main.py:282-291 | a run never enters synthesis, never writes the synthesized research, and a finished run ends with the tag COMPLETE |
| Engine.RunIgnoresSynthesizer | main.py:282-291 | a run gives the same result whatever the synthesizer chain does |
| Engine.RunAppendsOnly | main.py:170-264 | over a run the log only grows and keeps its earlier entries, and the query is never written |
| Engine.RunDerivesSources | main.py:170-209 | a finished run leaves the sources derived from the stored results, one per record |
| Pipeline.Project | main.py:306-313 | the report carries the final query, answer and sources as stored and a path no longer than the log |
| Pipeline.DeepResearch | main.py:295-313 | the entry point returns the run's error, or a report that echoes the query after a run that ended at COMPLETE |
| Pipeline.WorkflowPath | main.py:310-312 | the path is never longer than the log |
| Pipeline.WorkflowPathConcat | main.py:310-312 | the path of a concatenated log is the concatenation of the paths (log order is kept) |
| Pipeline.WorkflowPathOfOne | main.py:310-312 | a system message adds nothing to the path, an assistant message adds its content |
| Pipeline.WorkflowPathFromAssistants | main.py:310-312 | every path entry is the content of some assistant message of the log |
| Pipeline.PathOfFinishedLog | main.py:306-313 | the log of a finished run projects to exactly "Research phase completed." and "Answer drafting phase completed." |
| Pipeline.DeepResearchOutcome | main.py:295-313 | the pipeline result for every query and collaborator behaviour: the search error, the researcher error or the drafter error when one is raised, else the query, the drafted answer (asked with no synthesized research), the derived sources and the two phase notices |
| Pipeline.ReportSources | main.py:306-313 | a successful report echoes the query, has one source per search record with its placeholders, and a two-entry workflow path |
| Pipeline.FreshRunVisits | main.py:282-301 | from a fresh state a finished run visits start, research and answer with tags RESEARCH, RESEARCH, SYNTHESIS and ends with COMPLETE |

## Left out

- flask_api.py is not part of this model: HTTP routing, JSON parsing, request validation, CORS and error reporting are glue around `run_deep_research`.
- Reading API keys from the environment or a prompt (main.py:14-18), and loading a `.env` file: environment I/O.
- Construction of the language-model clients and their temperatures (main.py:30-32): floating point and a foreign provider. Each chain is an opaque function from its input record to a reply.
- Prompt template wording (main.py:61-166): opaque text. The chain inputs carry the variables the templates use.
- The search tool (main.py:34, 175) is an opaque function from the query to a list of records or a raised error. Its `k=8` setting is left out, and so is any reply other than a list of records or a raised error.
- A search record is modelled by the three fields the code reads, each present or absent. A key that is present with the value `None` is not modelled.
- The researcher chain is given each whole record (main.py:187), content and other keys included; the model gives it only the three fields above. This loses nothing the model states: the chain is opaque and is asked once per run, so no property depends on what else the record holds.
- LangGraph internals (main.py:282-292, 301): state channels, copying of the state between steps, checkpoints, and the default limit of 25 steps. The engine is an explicit loop over node names. It stops at END, at an error, or at an unregistered node name. How LangGraph itself treats a router reply naming an unregistered node (the conditional edges at main.py:289-291 have no path map) is not modelled; the model's `UnknownNode` stop is its own choice, and no run reaches it. Every run ends within three nodes, so the step limit is never reached.
- Console printing, `datetime.now()` and the interactive `__main__` block (main.py:174, 296-304, 316-325).
- Exceptions are modelled as error replies from the collaborators, propagated unchanged to the caller. The error's text and traceback are not modelled.
