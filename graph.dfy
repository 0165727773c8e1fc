/** The workflow state record as an object that the graph's nodes update in
    place, the engine that walks the graph over node names, and the pipeline
    entry point. Each method is proved against its specification function in
    modules Stages, Engine and Pipeline. */
module Graph {
  import opened Types
  import opened Stages
  import opened Engine
  import opened Pipeline

  /** Builds the source list from the search records, one entry per record in
      order, with a placeholder for each missing field. */
  method DeriveSources(results: seq<SearchResult>) returns (sources: seq<Source>)
    ensures |sources| == |results|
    ensures forall i :: 0 <= i < |results| ==>
      sources[i].title == Get(results[i].title, "Unknown Title") &&
      sources[i].url == Get(results[i].url, "Unknown URL") &&
      sources[i].publishedDate == Get(results[i].publishedDate, "Unknown Date")
  {
    sources := [];
    for k := 0 to |results|
      invariant |sources| == k
      invariant forall i :: 0 <= i < k ==> sources[i] == SourceOf(results[i])
    {
      var result := results[k];
      sources := sources + [Source(Get(result.title, UnknownTitle), Get(result.url, UnknownUrl),
                                   Get(result.publishedDate, UnknownDate))];
    }
  }

  class GraphState {
    var query: string
    var searchResults: Option<seq<SearchResult>>
    var researchNotes: Option<string>
    var sources: seq<Source>
    var synthesizedResearch: Option<string>
    var finalAnswer: Option<string>
    var messages: seq<Message>
    var currentState: AgentState

    /** The values of all fields. */
    function Snap(): Snapshot
      reads this
    {
      Snapshot(query, searchResults, researchNotes, sources, synthesizedResearch, finalAnswer, messages, currentState)
    }

    constructor (query: string)
      ensures Snap() == Initial(query)
      ensures this.query == query && searchResults == None && sources == [] && messages == []
      ensures researchNotes == None && synthesizedResearch == None && finalAnswer == None
      ensures currentState == Research
    {
      this.query := query;
      searchResults := None;
      researchNotes := None;
      sources := [];
      synthesizedResearch := None;
      finalAnswer := None;
      messages := [];
      currentState := Research;
    }

    /** The start node. */
    method StartWorkflow()
      modifies this
      ensures Snap() == StartStep(old(Snap()))
      ensures messages == old(messages) + [StartMessage(query)]
    {
      messages := messages + [StartMessage(query)];
    }

    /** The research node. */
    method RunResearch(o: Oracles) returns (outcome: Outcome)
      modifies this
      ensures Step(Snap(), outcome) == ResearchStep(old(Snap()), o)
    {
      if !Truthy(searchResults) {
        var found := o.search(query);
        if found.Err? {
          return Fail(found.error);
        }
        searchResults := Some(found.value);
        messages := messages + [SearchMessage(query)];
      }
      var notes := o.researcher(ResearchRequest(query, searchResults.value, messages));
      if notes.Err? {
        return Fail(notes.error);
      }
      var derived := DeriveSources(searchResults.value);
      researchNotes := Some(notes.value);
      sources := derived;
      messages := messages + [ResearchDone];
      currentState := Synthesis;
      outcome := Pass;
    }

    /** The synthesis node. */
    method RunSynthesis(o: Oracles) returns (outcome: Outcome)
      modifies this
      ensures Step(Snap(), outcome) == SynthesisStep(old(Snap()), o)
    {
      var text := o.synthesizer(SynthesisRequest(query, researchNotes, sources, messages));
      if text.Err? {
        return Fail(text.error);
      }
      synthesizedResearch := Some(text.value);
      messages := messages + [SynthesisDone];
      currentState := Answer;
      outcome := Pass;
    }

    /** The answer drafting node. */
    method RunAnswerDrafting(o: Oracles) returns (outcome: Outcome)
      modifies this
      ensures Step(Snap(), outcome) == AnswerStep(old(Snap()), o)
    {
      var text := o.drafter(DraftRequest(query, synthesizedResearch, sources, messages));
      if text.Err? {
        return Fail(text.error);
      }
      finalAnswer := Some(text.value);
      messages := messages + [AnswerDone];
      currentState := Complete;
      outcome := Pass;
    }

    /** Calls the node registered under the given name. */
    method RunNode(node: string, o: Oracles) returns (outcome: Outcome)
      requires node in Registered
      modifies this
      ensures Step(Snap(), outcome) == Dispatch(node, old(Snap()), o)
    {
      if node == "start" {
        StartWorkflow();
        outcome := Pass;
      } else if node == "research" {
        outcome := RunResearch(o);
      } else if node == "synthesis" {
        outcome := RunSynthesis(o);
      } else {
        outcome := RunAnswerDrafting(o);
      }
    }

    /** The compiled graph: enters at the start node and runs one node after
        another, following the fixed edge out of start and the router after
        every other node, until the router says END or something fails. */
    method Invoke(o: Oracles) returns (outcome: Outcome, ghost visited: seq<Visit>)
      modifies this
      ensures RunResult(Snap(), outcome, visited) == Run(Entry, old(Snap()), o)
    {
      ghost var total := Run(Entry, Snap(), o);
      var target := Entry;
      visited := [];
      while target.Node?
        invariant var rest := Run(target, Snap(), o);
          total == RunResult(rest.state, rest.outcome, visited + rest.visited)
        decreases Rank(target)
      {
        var node := target.name;
        if node !in Registered {
          return Fail(UnknownNode(node)), visited;
        }
        ghost var before := Snap();
        var step := RunNode(node, o);
        RunAdvance(node, before, Step(Snap(), step), o, visited);
        visited := visited + [Visit(node, before.currentState)];
        if step.Fail? {
          return step, visited;
        }
        target := NextAfter(node, currentState);
      }
      outcome := Pass;
    }
  }

  /** The pipeline entry point: a fresh state for the query, one run of the
      graph, and the report; an error raised during the run is returned. */
  method RunDeepResearch(query: string, o: Oracles) returns (r: Result<Report>)
    ensures r == DeepResearch(query, o)
  {
    var state := new GraphState(query);
    var outcome, visited := state.Invoke(o);
    if outcome.Fail? {
      return Err(outcome.error);
    }
    var path := WorkflowPath(state.messages);
    r := Ok(Report(state.query, state.finalAnswer, state.sources, path));
  }
}
