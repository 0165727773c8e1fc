/** The workflow graph: the router, the fixed edges, and a run that walks the
    graph node by node, applying the router after each stage to the tag that
    stage has just written. */
module Engine {
  import opened Types
  import opened Stages

  /** Where control goes next: a node named by a string, or the end of the run. */
  datatype Target = Node(name: string) | End

  /** The nodes registered with the graph. */
  const Registered: set<string> := {"start", "research", "synthesis", "answer"}

  /** The edge out of the graph's entry point. */
  const Entry := Node("start")

  /** The router, applied to the tag after a stage has run: it ends the run
      only on COMPLETE and never leads back to start or research. */
  function RouteNextStep(tag: AgentState): (t: Target)
    ensures t.End? <==> tag == Complete
    ensures t.Node? ==> t.name != "start" && t.name != "research"
  {
    match tag
    case Research => Node("synthesis")
    case Synthesis => Node("answer")
    case Answer => Node("complete")
    case Complete => End
  }

  /** The edges: a fixed edge from start to research, and the router after
      each of research, synthesis and answer. No edge leads back to start, and
      the run ends only after a node other than start leaves COMPLETE. */
  function NextAfter(node: string, tag: AgentState): (t: Target)
    ensures t.End? <==> node != "start" && tag == Complete
    ensures t.Node? ==> t.name != "start"
  {
    if node == "start" then Node("research") else RouteNextStep(tag)
  }

  /** The node a run enters, with the tag it finds on entry. */
  datatype Visit = Visit(node: string, tag: AgentState)

  /** The final state of a run, whether it finished, and the nodes it ran. */
  datatype RunResult = RunResult(state: Snapshot, outcome: Outcome, visited: seq<Visit>)

  /** A measure that every edge taken out of a finished node decreases. */
  function Rank(t: Target): nat {
    match t
    case End => 0
    case Node(n) =>
      if n == "start" then 5 else if n == "research" then 4
      else if n == "synthesis" then 3 else if n == "answer" then 2 else 1
  }

  /** Runs the registered node of the given name. */
  function Dispatch(node: string, s: Snapshot, o: Oracles): (r: Step)
    requires node in Registered
    ensures r.outcome.Pass? ==> Rank(NextAfter(node, r.state.currentState)) < Rank(Node(node))
    ensures r.state.query == s.query
  {
    if node == "start" then Step(StartStep(s), Pass)
    else if node == "research" then ResearchStep(s, o)
    else if node == "synthesis" then SynthesisStep(s, o)
    else AnswerStep(s, o)
  }

  /** Walks the graph from the target: an unregistered node name stops the
      run with an error, a node that raises stops it with that error. Only
      registered nodes run, each at most once, the query is never written, and
      a run that enters the graph and finishes ends at COMPLETE. */
  function Run(t: Target, s: Snapshot, o: Oracles): (r: RunResult)
    ensures |r.visited| <= Rank(t)
    ensures forall v :: v in r.visited ==> v.node in Registered
    ensures r.state.query == s.query
    ensures t.Node? && r.outcome.Pass? ==> r.state.currentState == Complete
    decreases Rank(t)
  {
    match t
    case End => RunResult(s, Pass, [])
    case Node(n) =>
      if n !in Registered then RunResult(s, Fail(UnknownNode(n)), [])
      else
        var step := Dispatch(n, s, o);
        var here := [Visit(n, s.currentState)];
        if step.outcome.Fail? then RunResult(step.state, step.outcome, here)
        else
          var rest := Run(NextAfter(n, step.state.currentState), step.state, o);
          RunResult(rest.state, rest.outcome, here + rest.visited)
  }

  /** A run that has visited some nodes and is about to enter a registered
      node: after the node, either the run stops with the node's error, or it
      goes on from the node's outgoing edge with the node recorded as visited. */
  lemma RunAdvance(node: string, before: Snapshot, step: Step, o: Oracles, visited: seq<Visit>)
    requires node in Registered
    requires step == Dispatch(node, before, o)
    ensures var now := Run(Node(node), before, o);
      var done := visited + [Visit(node, before.currentState)];
      var rest := Run(NextAfter(node, step.state.currentState), step.state, o);
      RunResult(now.state, now.outcome, visited + now.visited) ==
        if step.outcome.Fail? then RunResult(step.state, step.outcome, done)
        else RunResult(rest.state, rest.outcome, done + rest.visited)
  {
    if step.outcome.Pass? {
      var here := [Visit(node, before.currentState)];
      var rest := Run(NextAfter(node, step.state.currentState), step.state, o);
      assert Run(Node(node), before, o).visited == here + rest.visited;
      assert visited + (here + rest.visited) == (visited + here) + rest.visited;
    }
  }

  /** The router ends the run exactly on COMPLETE, and names a registered node
      exactly on RESEARCH and SYNTHESIS: its ANSWER branch names "complete",
      which is not a node of the graph. */
  lemma RouterTargets(tag: AgentState)
    ensures RouteNextStep(tag).End? <==> tag == Complete
    ensures RouteNextStep(tag).Node? ==>
      (RouteNextStep(tag).name in Registered <==> tag == Research || tag == Synthesis)
  {
  }

  /** Because each stage advances the tag before the router reads it, the
      router sends research on to answer, synthesis on to the unregistered
      "complete", and answer to the end. */
  lemma RouteAfterEachStage(s: Snapshot, o: Oracles)
    ensures ResearchStep(s, o).outcome.Pass? ==> NextAfter("research", ResearchStep(s, o).state.currentState) == Node("answer")
    ensures SynthesisStep(s, o).outcome.Pass? ==> NextAfter("synthesis", SynthesisStep(s, o).state.currentState) == Node("complete")
    ensures AnswerStep(s, o).outcome.Pass? ==> NextAfter("answer", AnswerStep(s, o).state.currentState) == End
  {
  }

  /** The traversal actually taken from the entry point, from any state:
      start, then research, then (if research finished) answer, then the end.
      The answer node finds the tag SYNTHESIS on entry. */
  lemma RunAsWritten(s: Snapshot, o: Oracles)
    ensures var research := ResearchStep(StartStep(s), o);
      var answer := AnswerStep(research.state, o);
      Run(Entry, s, o) ==
        if research.outcome.Fail? then
          RunResult(research.state, research.outcome, [Visit("start", s.currentState), Visit("research", s.currentState)])
        else
          RunResult(answer.state, answer.outcome,
                    [Visit("start", s.currentState), Visit("research", s.currentState), Visit("answer", Synthesis)])
  {
  }

  /** A run from the entry point never enters synthesis and never writes the
      synthesized research; when it finishes the tag is COMPLETE. */
  lemma SynthesisNeverRuns(s: Snapshot, o: Oracles)
    ensures forall v :: v in Run(Entry, s, o).visited ==> v.node != "synthesis"
    ensures Run(Entry, s, o).state.synthesizedResearch == s.synthesizedResearch
    ensures Run(Entry, s, o).outcome.Pass? ==> Run(Entry, s, o).state.currentState == Complete
  {
    RunAsWritten(s, o);
  }

  /** A run does not depend on the synthesizer chain at all: replacing it
      changes nothing. */
  lemma RunIgnoresSynthesizer(s: Snapshot, o: Oracles, other: SynthesisRequest -> Result<string>)
    ensures Run(Entry, s, o) == Run(Entry, s, o.(synthesizer := other))
  {
    RunAsWritten(s, o);
    RunAsWritten(s, o.(synthesizer := other));
  }

  /** The invariant between the stored results and the sources: once results
      are stored, the sources are the ones derived from them. */
  ghost predicate SourcesDerived(s: Snapshot) {
    s.searchResults.Some? ==> s.sources == SourcesFor(s.searchResults.value)
  }

  /** Over a whole run the log only grows and keeps its earlier entries, and
      the query is never written. */
  lemma RunAppendsOnly(s: Snapshot, o: Oracles)
    ensures var r := Run(Entry, s, o);
      |s.messages| < |r.state.messages| && r.state.messages[..|s.messages|] == s.messages
    ensures Run(Entry, s, o).state.query == s.query
  {
    RunAsWritten(s, o);
  }

  /** A run that finishes leaves the sources derived from the stored results,
      one per record. */
  lemma RunDerivesSources(s: Snapshot, o: Oracles)
    ensures Run(Entry, s, o).outcome.Pass? ==>
      SourcesDerived(Run(Entry, s, o).state) &&
      |Run(Entry, s, o).state.sources| == |Run(Entry, s, o).state.searchResults.value|
  {
    RunAsWritten(s, o);
  }
}
