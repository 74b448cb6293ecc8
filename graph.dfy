/** The agent pipeline (app/agent/graph.py): one state object passed through
    the planner, the researcher, the summarizer and the report writer, in
    that order. An error of any stage ends the run with that error. */
module AgentGraph {
  import opened Common
  import opened Text
  import opened AgentLlm
  import opened AgentNodes

  /** The metadata of a run. */
  datatype GraphMeta = GraphMeta(numSubtasks: nat, numResults: nat, userId: Option<string>)

  /** The first two stages: plan, then one note per subtask. */
  method PlanAndResearch(s: AgentState, cache: Cache, provider: ChatProvider, hash: string -> string)
    returns (r: Result<()>)
    modifies s`subtasks, s`results, cache`entries
    ensures var asked := AskResult(old(cache.entries), cache.readable, provider, hash, PlannerPrompt(s.query),
                                   DefaultChatModel);
            && (asked.Ok? ==> r == Ok(()) && s.subtasks == ParseSubtasks(asked.value)
                              && s.results == ResearchNotes(s.subtasks))
            && (asked.Err? ==> r == Err(asked.error)
                               && s.subtasks == old(s.subtasks) && s.results == old(s.results))
    ensures cache.entries == EntriesAfterAsk(old(cache.entries), cache.readable, cache.writable, provider, hash,
                                             PlannerPrompt(s.query), DefaultChatModel)
  {
    r := PlannerNode(s, cache, provider, hash);
    if r.Ok? {
      ResearcherNode(s);
    }
  }

  /** The outcome of a run: what `run_agent_graph` returns, and the cache
      records it leaves behind. */
  datatype GraphRun = GraphRun(result: Result<(string, GraphMeta)>, entries: map<string, Stored>)

  /** The report writer's stage of a run: the writer is asked with the
      summary; its cleaned answer is the report returned with `meta`. */
  function ReportStage(entries: map<string, Stored>, readable: bool, writable: bool, provider: ChatProvider,
                       hash: string -> string, query: string, summary: string, meta: GraphMeta): (g: GraphRun)
    ensures g.result.Ok? ==> !HasEscapedNewline(g.result.value.0) && g.result.value.1 == meta
  {
    var prompt := ReportPrompt(query, summary);
    var written := AskResult(entries, readable, provider, hash, prompt, DefaultChatModel);
    var after := EntriesAfterAsk(entries, readable, writable, provider, hash, prompt, DefaultChatModel);
    if written.Err? then GraphRun(Err(written.error), after)
    else
      CleanReportHasNoEscapes(written.value);
      GraphRun(Ok((CleanReport(written.value), meta)), after)
  }

  /** The summarizer's stage of a run and what follows it: retrieval for the
      query, the summarizer asked with the context, then the report writer
      asked with the summarizer's answer. */
  function SummaryStage(entries: map<string, Stored>, readable: bool, writable: bool, provider: ChatProvider,
                        hash: string -> string, retrieve: string -> Call<string>, webText: string,
                        query: string, meta: GraphMeta): (g: GraphRun)
    ensures g.result.Ok? ==> !HasEscapedNewline(g.result.value.0) && g.result.value.1 == meta
    ensures retrieve(query).Raised? ==> g == GraphRun(Err(Error(Other, retrieve(query).message)), entries)
  {
    match retrieve(query)
    case Raised(msg) => GraphRun(Err(Error(Other, msg)), entries)
    case Returned(context) =>
      var prompt := SummarizerPrompt(context, webText, query);
      var summarized := AskResult(entries, readable, provider, hash, prompt, DefaultChatModel);
      var after := EntriesAfterAsk(entries, readable, writable, provider, hash, prompt, DefaultChatModel);
      if summarized.Err? then GraphRun(Err(summarized.error), after)
      else ReportStage(after, readable, writable, provider, hash, query, summarized.value, meta)
  }

  /** `run_agent_graph` against the cache records `entries`: plan, take one
      note per subtask, then the summarizer's and the report writer's
      stages, each model call going through the cache the previous stage
      left; the first failing stage ends the run with its error. */
  function RunOutcome(entries: map<string, Stored>, readable: bool, writable: bool, provider: ChatProvider,
                      hash: string -> string, retrieve: string -> Call<string>, webText: string,
                      query: string, userId: Option<string>): (g: GraphRun)
    ensures g.result.Ok? ==> !HasEscapedNewline(g.result.value.0)
    ensures g.result.Ok? ==> g.result.value.1.numSubtasks == g.result.value.1.numResults
                             && g.result.value.1.userId == userId
    ensures AskResult(entries, readable, provider, hash, PlannerPrompt(query), DefaultChatModel).Err? ==>
              g.result == Err(AskResult(entries, readable, provider, hash, PlannerPrompt(query), DefaultChatModel).error)
  {
    var planned := AskResult(entries, readable, provider, hash, PlannerPrompt(query), DefaultChatModel);
    var after := EntriesAfterAsk(entries, readable, writable, provider, hash, PlannerPrompt(query), DefaultChatModel);
    if planned.Err? then GraphRun(Err(planned.error), after)
    else
      var subtasks := ParseSubtasks(planned.value);
      NotesGiveTasksBack(subtasks);
      SummaryStage(after, readable, writable, provider, hash, retrieve, webText, query,
                   GraphMeta(|subtasks|, |ResearchNotes(subtasks)|, userId))
  }

  /** The report writer's node as the last step of a run: its result is
      the report stage's, and a report returned is the one in the state. */
  method WriteReport(s: AgentState, cache: Cache, provider: ChatProvider, hash: string -> string, meta: GraphMeta)
    returns (r: Result<(string, GraphMeta)>)
    modifies s`report, cache`entries
    ensures var g := ReportStage(old(cache.entries), cache.readable, cache.writable, provider, hash, s.query,
                                 s.summary, meta);
            r == g.result && cache.entries == g.entries
    ensures r.Ok? ==> r.value.0 == s.report
  {
    var step := ReportWriterNode(s, cache, provider, hash);
    if step.Err? {
      return Err(step.error);
    }
    r := Ok((s.report, meta));
  }

  /** The summarizer's node, then the report writer's: the result is the
      summarizer's stage's, the summary kept is the summarizer's answer,
      and a report returned is the one in the state. */
  method SummarizeThenReport(s: AgentState, cache: Cache, provider: ChatProvider, hash: string -> string,
                             retrieve: string -> Call<string>, webText: string, meta: GraphMeta)
    returns (r: Result<(string, GraphMeta)>)
    modifies s`summary, s`ragMode, s`report, cache`entries
    ensures var g := SummaryStage(old(cache.entries), cache.readable, cache.writable, provider, hash, retrieve,
                                  webText, s.query, meta);
            r == g.result && cache.entries == g.entries
    ensures r.Ok? ==> r.value.0 == s.report && retrieve(s.query).Returned?
                      && Ok(s.summary) == AskResult(old(cache.entries), cache.readable, provider, hash,
                                                    SummarizerPrompt(retrieve(s.query).value, webText, s.query),
                                                    DefaultChatModel)
  {
    var step := SummarizerNode(s, cache, provider, hash, retrieve, webText);
    if step.Err? {
      return Err(step.error);
    }
    r := WriteReport(s, cache, provider, hash, meta);
  }

  /** `run_agent_graph`: a fresh state object goes through the four nodes in
      order, sharing one cache. */
  method RunAgentGraph(query: string, userId: Option<string>, outputFormat: string, cache: Cache,
                       provider: ChatProvider, hash: string -> string, retrieve: string -> Call<string>,
                       webText: string)
    returns (r: Result<(string, GraphMeta)>)
    modifies cache`entries
    ensures var g := RunOutcome(old(cache.entries), cache.readable, cache.writable, provider, hash, retrieve, webText,
                                query, userId);
            r == g.result && cache.entries == g.entries
  {
    var s := new AgentState(query, userId, outputFormat);
    var step := PlanAndResearch(s, cache, provider, hash);
    if step.Err? {
      return Err(step.error);
    }
    r := SummarizeThenReport(s, cache, provider, hash, retrieve, webText, GraphMeta(|s.subtasks|, |s.results|, userId));
  }
}
