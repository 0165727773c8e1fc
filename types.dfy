/** The values the research workflow passes around: the stage tag, the message
    log entries, raw search records, derived sources, the inputs of the three
    language-model chains, the external collaborators, and the snapshot of the
    workflow state record. */
module Types {

  datatype Option<T> = None | Some(value: T)

  /** Why a run stopped: an external collaborator raised, or a router named a
      node that was never registered with the graph. */
  datatype Error = Raised(message: string) | UnknownNode(name: string)

  /** The reply of an external collaborator: a value, or the error it raised. */
  datatype Result<T> = Ok(value: T) | Err(error: Error)

  /** What a node reports to the engine: it finished, or it raised. */
  datatype Outcome = Pass | Fail(error: Error)

  /** The stage tag; it names the stage to enter next. */
  datatype AgentState = Research | Synthesis | Answer | Complete

  datatype Role = System | Assistant

  datatype Message = Message(role: Role, content: string)

  /** A raw search record; a field is None when the record has no such key. */
  datatype SearchResult = SearchResult(title: Option<string>, url: Option<string>, publishedDate: Option<string>)

  datatype Source = Source(title: string, url: string, publishedDate: string)

  /** The variables handed to each language-model chain. */
  datatype ResearchRequest = ResearchRequest(query: string, searchResults: seq<SearchResult>, messages: seq<Message>)
  datatype SynthesisRequest = SynthesisRequest(query: string, researchNotes: Option<string>, sources: seq<Source>, messages: seq<Message>)
  datatype DraftRequest = DraftRequest(query: string, synthesizedResearch: Option<string>, sources: seq<Source>, messages: seq<Message>)

  /** The external collaborators: the web search and the three chains
      (prompt template, model and text parser), each an opaque function. */
  datatype Oracles = Oracles(
    search: string -> Result<seq<SearchResult>>,
    researcher: ResearchRequest -> Result<string>,
    synthesizer: SynthesisRequest -> Result<string>,
    drafter: DraftRequest -> Result<string>)

  /** A snapshot of every field of the workflow state record. */
  datatype Snapshot = Snapshot(
    query: string,
    searchResults: Option<seq<SearchResult>>,
    researchNotes: Option<string>,
    sources: seq<Source>,
    synthesizedResearch: Option<string>,
    finalAnswer: Option<string>,
    messages: seq<Message>,
    currentState: AgentState)

  /** What the pipeline entry point returns to its caller. */
  datatype Report = Report(query: string, finalAnswer: Option<string>, sources: seq<Source>, workflowPath: seq<string>)

  const UnknownTitle := "Unknown Title"
  const UnknownUrl := "Unknown URL"
  const UnknownDate := "Unknown Date"

  /** A dictionary lookup with a default: the field's value when the key is present. */
  function Get(field: Option<string>, default: string): (v: string)
    ensures field == Some(v) || (field == None && v == default)
  {
    match field
    case Some(v) => v
    case None => default
  }

  /** Python truthiness of the search_results field: it is falsy exactly when
      it is None or the empty list. */
  function Truthy(results: Option<seq<SearchResult>>): (b: bool)
    ensures b <==> results != None && results != Some([])
  {
    results.Some? && |results.value| > 0
  }

  function StartMessage(query: string): Message {
    Message(System, "Starting research workflow for: " + query)
  }

  function SearchMessage(query: string): Message {
    Message(System, "Performed initial search for: " + query)
  }

  const ResearchDone := Message(Assistant, "Research phase completed.")
  const SynthesisDone := Message(Assistant, "Synthesis phase completed.")
  const AnswerDone := Message(Assistant, "Answer drafting phase completed.")
}
