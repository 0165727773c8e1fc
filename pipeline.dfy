/** The pipeline entry point as a specification: build a fresh state for the
    query, run the graph from its entry point, and project the final state
    into the report returned to the caller. */
module Pipeline {
  import opened Types
  import opened Stages
  import opened Engine

  /** What one log entry contributes to the path: its content when an
      assistant wrote it, nothing otherwise. */
  function PathEntry(m: Message): seq<string> {
    if m.role == Assistant then [m.content] else []
  }

  /** The contents of the assistant messages of a log, in log order. */
  function WorkflowPath(messages: seq<Message>): (path: seq<string>)
    ensures |path| <= |messages|
  {
    if messages == [] then [] else PathEntry(messages[0]) + WorkflowPath(messages[1..])
  }

  /** The report built from a final state: the query, the answer and the
      sources as stored, and a path no longer than the log. */
  function Project(s: Snapshot): (r: Report)
    ensures r.query == s.query && r.finalAnswer == s.finalAnswer && r.sources == s.sources
    ensures |r.workflowPath| <= |s.messages|
  {
    Report(s.query, s.finalAnswer, s.sources, WorkflowPath(s.messages))
  }

  /** The whole pipeline: an error raised anywhere in the run reaches the
      caller; a report always echoes the query it was asked for and ends the
      run at COMPLETE. */
  function DeepResearch(query: string, o: Oracles): (r: Result<Report>)
    ensures r.Ok? ==> r.value.query == query && Run(Entry, Initial(query), o).state.currentState == Complete
  {
    var run := Run(Entry, Initial(query), o);
    if run.outcome.Fail? then Err(run.outcome.error) else Ok(Project(run.state))
  }

  /** The path of a concatenated log is the concatenation of the paths:
      the path keeps the log's order. */
  lemma {:induction false} WorkflowPathConcat(a: seq<Message>, b: seq<Message>)
    ensures WorkflowPath(a + b) == WorkflowPath(a) + WorkflowPath(b)
  {
    if a == [] {
      assert a + b == b;
    } else {
      var ab := a + b;
      assert ab != [] && ab[0] == a[0] && ab[1..] == a[1..] + b;
      WorkflowPathConcat(a[1..], b);
      calc {
        WorkflowPath(ab);
        PathEntry(a[0]) + WorkflowPath(a[1..] + b);
        PathEntry(a[0]) + (WorkflowPath(a[1..]) + WorkflowPath(b));
        (PathEntry(a[0]) + WorkflowPath(a[1..])) + WorkflowPath(b);
      }
    }
  }

  /** System messages contribute nothing to the path; every assistant message
      contributes its content. */
  lemma WorkflowPathOfOne(m: Message)
    ensures WorkflowPath([m]) == if m.role == Assistant then [m.content] else []
  {
  }

  /** Every entry of the path is the content of some assistant message of the log. */
  lemma {:induction false} WorkflowPathFromAssistants(messages: seq<Message>, k: nat)
    requires k < |WorkflowPath(messages)|
    ensures exists i :: 0 <= i < |messages| && messages[i].role == Assistant && messages[i].content == WorkflowPath(messages)[k]
  {
    var head := PathEntry(messages[0]);
    if k < |head| {
      assert messages[0].role == Assistant;
    } else {
      WorkflowPathFromAssistants(messages[1..], k - |head|);
      var i :| 0 <= i < |messages[1..]| && messages[1..][i].role == Assistant &&
               messages[1..][i].content == WorkflowPath(messages[1..])[k - |head|];
      assert messages[i + 1] == messages[1..][i];
    }
  }

  /** The log of a finished run yields exactly the two phase notices. */
  lemma PathOfFinishedLog(query: string)
    ensures WorkflowPath([StartMessage(query), SearchMessage(query), ResearchDone, AnswerDone]) ==
            ["Research phase completed.", "Answer drafting phase completed."]
  {
    var log := [StartMessage(query), SearchMessage(query), ResearchDone, AnswerDone];
    assert log[1..] == [SearchMessage(query), ResearchDone, AnswerDone];
    assert log[1..][1..] == [ResearchDone, AnswerDone];
    assert log[1..][1..][1..] == [AnswerDone];
    assert log[1..][1..][1..][1..] == [];
    assert WorkflowPath(log[1..][1..][1..]) == ["Answer drafting phase completed."];
    assert WorkflowPath(log[1..][1..]) == ["Research phase completed.", "Answer drafting phase completed."];
    assert WorkflowPath(log[1..]) == WorkflowPath(log[1..][1..]);
  }

  /** The complete outcome of the pipeline for a query: the search reply, the
      researcher reply and the drafter reply decide it, and the synthesizer is
      never consulted. The drafter is asked with no synthesized research; on
      success the report carries the query, the drafted answer, one source per
      search record, and the two phase notices of the stages that ran. */
  lemma DeepResearchOutcome(query: string, o: Oracles)
    ensures o.search(query).Err? ==> DeepResearch(query, o) == Err(o.search(query).error)
    ensures o.search(query).Ok? ==>
      var results := o.search(query).value;
      var log := [StartMessage(query), SearchMessage(query)];
      var notes := o.researcher(ResearchRequest(query, results, log));
      var draft := o.drafter(DraftRequest(query, None, SourcesFor(results), log + [ResearchDone]));
      DeepResearch(query, o) ==
        if notes.Err? then Err(notes.error)
        else if draft.Err? then Err(draft.error)
        else Ok(Report(query, Some(draft.value), SourcesFor(results),
                       ["Research phase completed.", "Answer drafting phase completed."]))
  {
    var s0 := Initial(query);
    RunAsWritten(s0, o);
    if o.search(query).Ok? {
      var log := [StartMessage(query), SearchMessage(query)];
      assert StartStep(s0).messages + [SearchMessage(query)] == log;
      assert log + [ResearchDone] + [AnswerDone] == [StartMessage(query), SearchMessage(query), ResearchDone, AnswerDone];
      PathOfFinishedLog(query);
    }
  }

  /** The report echoes the query, and its sources match the search records in
      number and order, each with its placeholders. */
  lemma ReportSources(query: string, o: Oracles, i: nat)
    requires DeepResearch(query, o).Ok?
    ensures o.search(query).Ok?
    ensures DeepResearch(query, o).value.query == query
    ensures |DeepResearch(query, o).value.sources| == |o.search(query).value|
    ensures i < |o.search(query).value| ==>
      DeepResearch(query, o).value.sources[i] == SourceOf(o.search(query).value[i])
    ensures |DeepResearch(query, o).value.workflowPath| == 2
  {
    DeepResearchOutcome(query, o);
  }

  /** From a fresh state the research node and the answer node find the tags
      RESEARCH and SYNTHESIS on entry: the tag goes from SYNTHESIS straight to
      COMPLETE, and ANSWER is never observed. */
  lemma FreshRunVisits(query: string, o: Oracles)
    requires DeepResearch(query, o).Ok?
    ensures Run(Entry, Initial(query), o).visited ==
            [Visit("start", Research), Visit("research", Research), Visit("answer", Synthesis)]
    ensures Run(Entry, Initial(query), o).state.currentState == Complete
  {
  }
}
