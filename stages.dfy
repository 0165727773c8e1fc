/** The four graph nodes as functions from one snapshot of the workflow state
    to the next. Each is the specification of the node method of the same name
    in module Graph, and the lemmas below state what each node may write. */
module Stages {
  import opened Types

  /** The state record as freshly constructed for a query: nothing is stored
      yet, so research on a fresh state always searches. */
  function Initial(query: string): (s: Snapshot)
    ensures s.query == query && !Truthy(s.searchResults) && s.currentState == Research
  {
    Snapshot(query, None, None, [], None, None, [], Research)
  }

  /** One source entry, with a placeholder for every missing field. */
  function SourceOf(r: SearchResult): (src: Source)
    ensures r.title == Some(src.title) || (r.title == None && src.title == UnknownTitle)
    ensures r.url == Some(src.url) || (r.url == None && src.url == UnknownUrl)
    ensures r.publishedDate == Some(src.publishedDate) || (r.publishedDate == None && src.publishedDate == UnknownDate)
  {
    Source(Get(r.title, UnknownTitle), Get(r.url, UnknownUrl), Get(r.publishedDate, UnknownDate))
  }

  /** The source list derived from the search records, entry by entry. */
  function SourcesFor(results: seq<SearchResult>): (sources: seq<Source>)
    ensures |sources| == |results|
    ensures forall i :: 0 <= i < |results| ==> sources[i] == SourceOf(results[i])
  {
    seq(|results|, i requires 0 <= i < |results| => SourceOf(results[i]))
  }

  /** A node's resulting state and whether it finished or raised. */
  datatype Step = Step(state: Snapshot, outcome: Outcome)

  /** The start node: logs the start of the workflow and nothing else. */
  function StartStep(s: Snapshot): (t: Snapshot)
    ensures |t.messages| == |s.messages| + 1 && t.messages[..|s.messages|] == s.messages
    ensures t.messages[|s.messages|].role == System && t.query == s.query
  {
    s.(messages := s.messages + [StartMessage(s.query)])
  }

  /** The research node: searches only when the stored results are falsy,
      then asks the researcher chain for notes and derives the sources. */
  function ResearchStep(s: Snapshot, o: Oracles): (r: Step)
    ensures r.outcome.Pass? ==> r.state.currentState == Synthesis
  {
    if !Truthy(s.searchResults) then
      match o.search(s.query)
      case Err(e) => Step(s, Fail(e))
      case Ok(found) =>
        ResearchAfterSearch(s.(searchResults := Some(found), messages := s.messages + [SearchMessage(s.query)]), o)
    else
      ResearchAfterSearch(s, o)
  }

  /** The research node once the search results are stored. */
  function ResearchAfterSearch(s: Snapshot, o: Oracles): (r: Step)
    requires s.searchResults.Some?
    ensures r.outcome.Pass? ==> r.state.currentState == Synthesis
  {
    var results := s.searchResults.value;
    match o.researcher(ResearchRequest(s.query, results, s.messages))
    case Err(e) => Step(s, Fail(e))
    case Ok(notes) =>
      Step(s.(researchNotes := Some(notes), sources := SourcesFor(results),
              messages := s.messages + [ResearchDone], currentState := Synthesis), Pass)
  }

  /** The synthesis node. */
  function SynthesisStep(s: Snapshot, o: Oracles): (r: Step)
    ensures r.outcome.Pass? ==> r.state.currentState == Answer
  {
    match o.synthesizer(SynthesisRequest(s.query, s.researchNotes, s.sources, s.messages))
    case Err(e) => Step(s, Fail(e))
    case Ok(text) =>
      Step(s.(synthesizedResearch := Some(text), messages := s.messages + [SynthesisDone], currentState := Answer), Pass)
  }

  /** The answer drafting node. */
  function AnswerStep(s: Snapshot, o: Oracles): (r: Step)
    ensures r.outcome.Pass? ==> r.state.currentState == Complete
  {
    match o.drafter(DraftRequest(s.query, s.synthesizedResearch, s.sources, s.messages))
    case Err(e) => Step(s, Fail(e))
    case Ok(text) =>
      Step(s.(finalAnswer := Some(text), messages := s.messages + [AnswerDone], currentState := Complete), Pass)
  }

  /** Every entry of the derived list comes from the record at the same
      position, field by field, with the placeholder where the field is missing. */
  lemma SourcesForPlaceholders(results: seq<SearchResult>, i: nat)
    requires i < |results|
    ensures |SourcesFor(results)| == |results|
    ensures SourcesFor(results)[i].title == (if results[i].title.Some? then results[i].title.value else "Unknown Title")
    ensures SourcesFor(results)[i].url == (if results[i].url.Some? then results[i].url.value else "Unknown URL")
    ensures SourcesFor(results)[i].publishedDate ==
            (if results[i].publishedDate.Some? then results[i].publishedDate.value else "Unknown Date")
  {
  }

  /** Deriving sources commutes with concatenating result lists, so the
      order of the sources is the order of the records. */
  lemma SourcesForConcat(a: seq<SearchResult>, b: seq<SearchResult>)
    ensures SourcesFor(a + b) == SourcesFor(a) + SourcesFor(b)
  {
  }

  /** A fresh state: no results, no notes, no sources, an empty log, tag RESEARCH. */
  lemma InitialState(query: string)
    ensures Initial(query).query == query
    ensures Initial(query).searchResults == None && Initial(query).sources == []
    ensures Initial(query).researchNotes == None && Initial(query).synthesizedResearch == None
    ensures Initial(query).finalAnswer == None
    ensures Initial(query).messages == [] && Initial(query).currentState == Research
  {
  }

  /** The start node appends exactly one system message naming the query and
      changes nothing else. */
  lemma StartWritesOnlyTheLog(s: Snapshot)
    ensures StartStep(s).messages == s.messages + [Message(System, "Starting research workflow for: " + s.query)]
    ensures StartStep(s).(messages := s.messages) == s
  {
  }

  /** The search guard: research searches exactly when the stored results are
      falsy, and logs the search only then; stored non-empty results are kept,
      and then the search tool's reply, whatever it is, plays no part. */
  lemma ResearchSearchGuard(s: Snapshot, o: Oracles, other: string -> Result<seq<SearchResult>>)
    ensures var r := ResearchStep(s, o);
      Truthy(s.searchResults) ==>
        r.state.searchResults == s.searchResults &&
        r.state.messages == s.messages + (if r.outcome.Pass? then [ResearchDone] else [])
    ensures var r := ResearchStep(s, o);
      !Truthy(s.searchResults) && o.search(s.query).Ok? ==>
        r.state.searchResults == Some(o.search(s.query).value) &&
        r.state.messages == s.messages + [SearchMessage(s.query)] + (if r.outcome.Pass? then [ResearchDone] else [])
    ensures !Truthy(s.searchResults) && o.search(s.query).Err? ==>
      ResearchStep(s, o) == Step(s, Fail(o.search(s.query).error))
    ensures Truthy(s.searchResults) ==> ResearchStep(s, o) == ResearchStep(s, o.(search := other))
  {
  }

  /** A finished research step stores the notes, derives one source per record
      in order, and writes nothing outside its own fields. */
  lemma ResearchWritesOwnFields(s: Snapshot, o: Oracles)
    ensures var r := ResearchStep(s, o);
      r.outcome.Pass? ==>
        r.state.searchResults.Some? &&
        r.state.sources == SourcesFor(r.state.searchResults.value) &&
        |r.state.sources| == |r.state.searchResults.value| &&
        r.state.researchNotes.Some? &&
        r.state.currentState == Synthesis &&
        r.state.query == s.query &&
        r.state.synthesizedResearch == s.synthesizedResearch &&
        r.state.finalAnswer == s.finalAnswer
  {
  }

  /** When the researcher chain raises after a fresh search, the stored
      results and the search message remain, while the notes, the sources and
      the tag are untouched: the research node is not atomic. */
  lemma ResearchPartialUpdate(s: Snapshot, o: Oracles)
    requires !Truthy(s.searchResults) && o.search(s.query).Ok?
    requires o.researcher(ResearchRequest(s.query, o.search(s.query).value, s.messages + [SearchMessage(s.query)])).Err?
    ensures var r := ResearchStep(s, o);
      r.outcome.Fail? &&
      r.state == s.(searchResults := Some(o.search(s.query).value), messages := s.messages + [SearchMessage(s.query)])
  {
  }

  /** The synthesis node writes only the synthesized research, one assistant
      message and the tag. */
  lemma SynthesisWritesOwnFields(s: Snapshot, o: Oracles)
    ensures var r := SynthesisStep(s, o);
      if r.outcome.Pass? then
        r.state == s.(synthesizedResearch := r.state.synthesizedResearch,
                      messages := s.messages + [SynthesisDone], currentState := Answer) &&
        r.state.synthesizedResearch.Some?
      else r.state == s
  {
  }

  /** The answer drafting node writes only the final answer, one assistant
      message and the tag. */
  lemma AnswerWritesOwnFields(s: Snapshot, o: Oracles)
    ensures var r := AnswerStep(s, o);
      if r.outcome.Pass? then
        r.state == s.(finalAnswer := r.state.finalAnswer,
                      messages := s.messages + [AnswerDone], currentState := Complete) &&
        r.state.finalAnswer.Some?
      else r.state == s
  {
  }
}
