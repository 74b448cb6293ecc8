/** The four nodes of the agent pipeline (app/agent/nodes.py). The shared
    state dictionary is the `AgentState` object; each node changes only its
    own fields. Every model call goes through the cache of `AgentLlm`; the
    document retrieval of the summarizer is foreign code, given as
    `retrieve`. */
module AgentNodes {
  import opened Common
  import opened Text
  import opened AgentLlm

  /** The state dictionary of one pipeline run. `ragMode` is absent until
      the summarizer has run. */
  class AgentState {
    var query: string
    var userId: Option<string>
    var outputFormat: string
    var subtasks: seq<string>
    var results: seq<string>
    var summary: string
    var report: string
    var ragMode: Option<string>

    /** The initial state of a run: the request, and empty work fields. */
    constructor(query: string, userId: Option<string>, outputFormat: string)
      ensures this.query == query && this.userId == userId && this.outputFormat == outputFormat
      ensures subtasks == [] && results == [] && summary == "" && report == "" && ragMode == None
    {
      this.query := query;
      this.userId := userId;
      this.outputFormat := outputFormat;
      subtasks := [];
      results := [];
      summary := "";
      report := "";
      ragMode := None;
    }
  }

  // ----- Planner -----

  /** The line boundaries of Python's `str.splitlines()`; `\r\n` counts as one. */
  predicate IsLineBreak(c: char) {
    '\n' <= c <= '\r' || '\U{1C}' <= c <= '\U{1E}' || c == '\U{85}' || c == '\U{2028}' || c == '\U{2029}'
  }

  /** The characters `strip("-• ")` removes. */
  const BulletChars: set<char> := {'-', '•', ' '}

  /** The index of the first line boundary at or after `from`, or `|s|`. */
  function FirstBreak(s: string, from: nat): (k: nat)
    requires from <= |s|
    ensures from <= k <= |s|
    ensures forall i :: from <= i < k ==> !IsLineBreak(s[i])
    ensures k < |s| ==> IsLineBreak(s[k])
    decreases |s| - from
  {
    if from == |s| || IsLineBreak(s[from]) then from else FirstBreak(s, from + 1)
  }

  /** `s.splitlines()`: the text between line boundaries; a final boundary
      does not start another line. */
  function SplitLines(s: string): seq<string>
    decreases |s|
  {
    if s == [] then []
    else
      var k := FirstBreak(s, 0);
      if k == |s| then [s]
      else
        var next := if s[k] == '\r' && k + 1 < |s| && s[k + 1] == '\n' then k + 2 else k + 1;
        [s[..k]] + SplitLines(s[next..])
  }

  /** No line holds a line boundary. */
  lemma {:induction false} SplitLinesHaveNoBreaks(s: string)
    ensures forall l :: l in SplitLines(s) ==> forall i :: 0 <= i < |l| ==> !IsLineBreak(l[i])
    decreases |s|
  {
    if s != [] {
      var k := FirstBreak(s, 0);
      if k < |s| {
        var next := if s[k] == '\r' && k + 1 < |s| && s[k + 1] == '\n' then k + 2 else k + 1;
        SplitLinesHaveNoBreaks(s[next..]);
      }
    }
  }

  /** Text whose only line boundaries are `\n`. */
  predicate OnlyNewlines(s: string) {
    forall i :: 0 <= i < |s| && IsLineBreak(s[i]) ==> s[i] == '\n'
  }

  lemma OnlyNewlinesSuffix(s: string, j: nat)
    requires j <= |s| && OnlyNewlines(s)
    ensures OnlyNewlines(s[j..])
  {
    forall i | 0 <= i < |s| - j ensures s[j..][i] == s[j + i] { }
  }

  /** One step of `splitlines` at a `\n`. */
  lemma SplitLinesAtNewline(s: string)
    requires FirstBreak(s, 0) < |s| && s[FirstBreak(s, 0)] == '\n'
    ensures SplitLines(s) == [s[..FirstBreak(s, 0)]] + SplitLines(s[FirstBreak(s, 0) + 1..])
  {
  }

  lemma JoinCons(sep: string, a: string, tail: seq<string>)
    requires tail != []
    ensures Join(sep, [a] + tail) == a + sep + Join(sep, tail)
  {
    assert ([a] + tail)[1..] == tail;
  }

  /** For text whose only boundaries are `\n` and that does not end with one,
      joining the lines with `\n` gives the text back. */
  lemma {:induction false} SplitLinesJoin(s: string)
    requires OnlyNewlines(s)
    requires s == [] || s[|s| - 1] != '\n'
    ensures Join("\n", SplitLines(s)) == s
    decreases |s|
  {
    if s != [] {
      var k := FirstBreak(s, 0);
      if k == |s| {
        assert SplitLines(s) == [s];
      } else {
        var rest := s[k + 1..];
        assert OnlyNewlines(rest) && rest != [] && rest[|rest| - 1] != '\n' by {
          OnlyNewlinesSuffix(s, k + 1);
          assert rest[|rest| - 1] == s[|s| - 1];
        }
        calc {
          Join("\n", SplitLines(s));
          == { SplitLinesAtNewline(s); }
          Join("\n", [s[..k]] + SplitLines(rest));
          == { JoinCons("\n", s[..k], SplitLines(rest)); }
          s[..k] + "\n" + Join("\n", SplitLines(rest));
          == { SplitLinesJoin(rest); }
          s[..k] + "\n" + rest;
          == { assert s[k] == '\n'; assert s == s[..k] + [s[k]] + rest; }
          s;
        }
      }
    }
  }

  /** `line.strip("-• ").strip()`. */
  function CleanLine(line: string): (r: string)
    ensures |r| <= |line|
    ensures r == [] || (!IsSpace(r[0]) && !IsSpace(r[|r| - 1]))
  {
    Strip(StripChars(line, BulletChars))
  }

  /** A cleaned line is a piece of the line: only leading and trailing
      characters are removed. */
  lemma CleanLineIsSlice(line: string)
    ensures exists a :: 0 <= a <= |line| && CleanLine(line) <= line[a..]
  {
    var t := StripChars(line, BulletChars);
    var b := LeftCut(line, BulletChars);
    var c := LeftCut(t, Whitespace);
    StripCharsPrefix(line, BulletChars);
    StripCharsPrefix(t, Whitespace);
    PrefixOfSuffix(Strip(t), t, line, b, c);
  }

  /** The subtasks `planner_node` reads from the model's reply. */
  function ParseSubtasks(raw: string): seq<string> {
    var lines := NonBlank(SplitLines(raw));
    seq(|lines|, k requires 0 <= k < |lines| => CleanLine(lines[k]))
  }

  /** There is one subtask per non-blank line of the reply, in order, each
      the line with bullets and whitespace trimmed from both ends. */
  lemma SubtasksFromLines(raw: string)
    ensures |ParseSubtasks(raw)| == |NonBlank(SplitLines(raw))| <= |SplitLines(raw)|
    ensures forall k :: 0 <= k < |ParseSubtasks(raw)| ==> ParseSubtasks(raw)[k] == CleanLine(NonBlank(SplitLines(raw))[k])
    ensures forall k :: 0 <= k < |ParseSubtasks(raw)| ==>
              exists l :: l in SplitLines(raw) && !IsBlank(l) && ParseSubtasks(raw)[k] == CleanLine(l)
    ensures forall k :: 0 <= k < |ParseSubtasks(raw)| ==>
              ParseSubtasks(raw)[k] == [] || !IsSpace(ParseSubtasks(raw)[k][0])
  {
    var lines := NonBlank(SplitLines(raw));
    var ps := ParseSubtasks(raw);
    assert |ps| == |lines|;
    forall k | 0 <= k < |ps|
      ensures exists l :: l in SplitLines(raw) && !IsBlank(l) && ps[k] == CleanLine(l)
    {
      var l := lines[k];
      assert l in lines;
      assert l in SplitLines(raw) && !IsBlank(l) && ps[k] == CleanLine(l);
    }
    forall k | 0 <= k < |ps| ensures ps[k] == [] || !IsSpace(ps[k][0]) {
      assert ps[k] == CleanLine(lines[k]);
    }
  }

  /** A line of dashes is not blank, so it yields an empty subtask. */
  lemma DashLineGivesEmptySubtask()
    ensures ParseSubtasks("---") == [""]
  {
    assert FirstBreak("---", 0) == 3;
    assert SplitLines("---") == ["---"];
    assert !IsBlank("---") by { assert "---"[0] !in Whitespace; }
    assert NonBlank(["---"]) == ["---"];
    assert StripChars("---", BulletChars) == [];
  }

  /** The fixed text of the planner's prompt before the query. */
  const PlannerHead: string :=
    "\n    You are a planning agent.\n\n    Break the following task into 3–5 clear, concise subtasks.\n"
    + "    Return ONLY bullet points, one per line.\n\n    Task: "

  function PlannerPrompt(query: string): string {
    PlannerHead + query + "\n    "
  }

  /** `planner_node`: ask the model for a plan and keep its bullet lines. */
  method PlannerNode(state: AgentState, cache: Cache, provider: ChatProvider, hash: string -> string)
    returns (r: Result<()>)
    modifies state`subtasks, cache`entries
    ensures var asked := AskResult(old(cache.entries), cache.readable, provider, hash, PlannerPrompt(state.query),
                                   DefaultChatModel);
            && (asked.Ok? ==> r == Ok(()) && state.subtasks == ParseSubtasks(asked.value))
            && (asked.Err? ==> r == Err(asked.error) && state.subtasks == old(state.subtasks))
    ensures cache.entries == EntriesAfterAsk(old(cache.entries), cache.readable, cache.writable, provider, hash,
                                             PlannerPrompt(state.query), DefaultChatModel)
  {
    var prompt := PlannerPrompt(state.query);
    var raw;
    ghost var calls;
    raw, calls := cache.AskLlm(provider, hash, prompt, DefaultChatModel);
    if raw.Err? {
      return Err(raw.error);
    }
    state.subtasks := ParseSubtasks(raw.value);
    r := Ok(());
  }

  // ----- Researcher -----

  const NotesPrefix: string := "Notes: key ideas, definitions and examples about: "

  /** The placeholder research text of one subtask. */
  function Note(task: string): string {
    NotesPrefix + task
  }

  function ResearchNotes(tasks: seq<string>): seq<string> {
    seq(|tasks|, k requires 0 <= k < |tasks| => Note(tasks[k]))
  }

  /** The subtask a note is about: the text after the fixed prefix. */
  function TaskOf(note: string): string
    requires |note| >= |NotesPrefix|
  {
    note[|NotesPrefix|..]
  }

  /** One note per subtask, in order; each note gives its subtask back. */
  lemma NotesGiveTasksBack(tasks: seq<string>)
    ensures |ResearchNotes(tasks)| == |tasks|
    ensures forall k :: 0 <= k < |tasks| ==>
              |ResearchNotes(tasks)[k]| >= |NotesPrefix| && ResearchNotes(tasks)[k][..|NotesPrefix|] == NotesPrefix
              && TaskOf(ResearchNotes(tasks)[k]) == tasks[k]
  {
  }

  /** `researcher_node`, with its loop over the subtasks. */
  method ResearcherNode(state: AgentState)
    modifies state`results
    ensures state.results == ResearchNotes(state.subtasks)
  {
    var results: seq<string> := [];
    for i := 0 to |state.subtasks|
      invariant results == ResearchNotes(state.subtasks[..i])
    {
      results := results + [Note(state.subtasks[i])];
    }
    assert state.subtasks[..|state.subtasks|] == state.subtasks;
    state.results := results;
  }

  // ----- Summarizer -----

  /** The context length from which the summarizer answers from the documents alone. */
  const StrictThreshold: nat := 500

  /** The summarizer's rule: the context, stripped, is long enough. */
  predicate StrictMode(context: string) {
    |Strip(context)| >= StrictThreshold
  }

  function ModeName(strict: bool): string {
    if strict then "strict" else "hybrid"
  }

  /** The fixed parts of the two summarizer prompts. */
  const StrictHead: string :=
    "\nYou are a retrieval-augmented assistant.\n\nAnswer the question using ONLY the information provided\n"
    + "in the DOCUMENT CONTEXT below.\n\nDOCUMENT CONTEXT:\n"
  const StrictRules: string :=
    "\n\nRules:\n- Use ONLY the document content.\n- Do NOT use prior knowledge.\n- Do NOT infer beyond the text.\n"
    + "- If the answer is not present, say:\n"
    + "  \"The provided documents do not contain enough information to answer this question.\"\n\nQuestion:\n"
  const HybridHead: string :=
    "\nYou are a helpful assistant.\n\nAnswer the question using:\n1. The document context (if relevant)\n"
    + "2. General knowledge (if needed)\n\nDOCUMENT CONTEXT (may be short or partial):\n"
  const WebHeading: string := "\n\nWEB RESEARCH:\n"
  const HybridRules: string :=
    "\n\nRules:\n- Prefer document context when available.\n"
    + "- You may use general knowledge if the document is insufficient.\n- Clearly explain the answer.\n"
    + "- Keep it concise and clear.\n\nQuestion:\n"

  function StrictPrompt(context: string, query: string): string {
    Concat([StrictHead, context, StrictRules, query, "\n"])
  }

  function HybridPrompt(context: string, webText: string, query: string): string {
    Concat([HybridHead, context, WebHeading, webText, HybridRules, query, "\n"])
  }

  /** The summarizer's prompt as written: the hybrid branch names `web_text`,
      which nothing defines, so building that prompt raises `NameError`. */
  function SummarizerPromptAsWritten(context: string, query: string): (r: Result<string>)
    ensures StrictMode(context) ==> r == Ok(StrictPrompt(context, query))
    ensures !StrictMode(context) ==> r == Err(Error(NameError, "name 'web_text' is not defined"))
  {
    if StrictMode(context) then Ok(StrictPrompt(context, query))
    else Err(Error(NameError, "name 'web_text' is not defined"))
  }

  /** The summarizer's prompt with the web research as a parameter (empty
      while the researcher has no search behind it). */
  function SummarizerPrompt(context: string, webText: string, query: string): string {
    if StrictMode(context) then StrictPrompt(context, query) else HybridPrompt(context, webText, query)
  }

  /** No document context at all already takes the failing branch. */
  lemma EmptyContextRaisesNameError(query: string)
    ensures SummarizerPromptAsWritten("", query).Err?
    ensures SummarizerPromptAsWritten("", query).error.kind == NameError
  {
    assert Strip("") == [];
  }

  /** The corrected prompt agrees with the code wherever the code does not
      fail, and exists for every context. */
  lemma CorrectedPromptAgrees(context: string, webText: string, query: string)
    ensures SummarizerPromptAsWritten(context, query).Ok? ==>
              SummarizerPromptAsWritten(context, query).value == SummarizerPrompt(context, webText, query)
    ensures !StrictMode(context) ==> SummarizerPrompt(context, webText, query) == HybridPrompt(context, webText, query)
  {
  }

  /** Whitespace does not count towards the threshold: blank context is
      never strict. */
  lemma BlankContextIsHybrid(context: string)
    requires IsBlank(context)
    ensures !StrictMode(context)
  {
  }

  /** The strict prompt carries the context as retrieved, not stripped,
      and the question last. */
  lemma StrictPromptLayout(context: string, query: string)
    ensures var p := StrictPrompt(context, query);
            var a := |StrictHead|;
            var b := a + |context| + |StrictRules|;
            && |p| == b + |query| + 1
            && p[a..a + |context|] == context && p[b..b + |query|] == query
  {
    var p := StrictPrompt(context, query);
    var a := |StrictHead|;
    ConcatFive(StrictHead, context, StrictRules, query, "\n");
    assert p == StrictHead + context + (StrictRules + query + "\n");
    assert p[a..a + |context|] == context;
  }

  /** The hybrid prompt carries the context as retrieved, then the web
      research, then the question. */
  lemma HybridPromptLayout(context: string, webText: string, query: string)
    ensures var p := HybridPrompt(context, webText, query);
            var a := |HybridHead|;
            var w := a + |context| + |WebHeading|;
            var b := w + |webText| + |HybridRules|;
            && |p| == b + |query| + 1
            && p[a..a + |context|] == context && p[w..w + |webText|] == webText && p[b..b + |query|] == query
  {
    var p := HybridPrompt(context, webText, query);
    var a := |HybridHead|;
    var w := a + |context| + |WebHeading|;
    ConcatSeven(HybridHead, context, WebHeading, webText, HybridRules, query, "\n");
    assert p == (HybridHead + context + WebHeading) + webText + (HybridRules + query + "\n");
    assert p[w..w + |webText|] == webText;
  }

  /** `summarizer_node` with the web research given: retrieve the context,
      choose the mode, ask the model, record the answer and the mode. */
  method SummarizerNode(state: AgentState, cache: Cache, provider: ChatProvider, hash: string -> string,
                        retrieve: string -> Call<string>, webText: string)
    returns (r: Result<()>)
    modifies state`summary, state`ragMode, cache`entries
    ensures retrieve(state.query).Raised? ==>
              r == Err(Error(Other, retrieve(state.query).message))
              && state.summary == old(state.summary) && state.ragMode == old(state.ragMode)
              && cache.entries == old(cache.entries)
    ensures retrieve(state.query).Returned? ==>
              var context := retrieve(state.query).value;
              var prompt := SummarizerPrompt(context, webText, state.query);
              var asked := AskResult(old(cache.entries), cache.readable, provider, hash, prompt, DefaultChatModel);
              && cache.entries == EntriesAfterAsk(old(cache.entries), cache.readable, cache.writable, provider, hash,
                                                  prompt, DefaultChatModel)
              && (asked.Ok? ==> r == Ok(()) && state.summary == asked.value
                                && state.ragMode == Some(ModeName(StrictMode(context))))
              && (asked.Err? ==> r == Err(asked.error)
                                 && state.summary == old(state.summary) && state.ragMode == old(state.ragMode))
  {
    var query := state.query;
    var retrieved := retrieve(query);
    if retrieved.Raised? {
      return Err(Error(Other, retrieved.message));
    }
    var ragContext := retrieved.value;
    var contextLength := |Strip(ragContext)|;
    var useStrictMode := contextLength >= StrictThreshold;
    var prompt := SummarizerPrompt(ragContext, webText, query);
    var summary;
    ghost var calls;
    summary, calls := cache.AskLlm(provider, hash, prompt, DefaultChatModel);
    if summary.Err? {
      return Err(summary.error);
    }
    state.summary := summary.value;
    state.ragMode := Some(if useStrictMode then "strict" else "hybrid");
    r := Ok(());
  }

  // ----- Report writer -----

  /** The fixed parts of the report writer's prompt. */
  const ReportHead: string :=
    "\nYou are a professional technical writer.\n\nWrite a clear, well-formatted Markdown report based on the following:\n\n"
    + "Task / Query:\n"
  const SummaryHeading: string := "\n\nBullet-point Summary of Key Points:\n"
  const ReportRules: string :=
    "\n\nFollow these rules strictly:\n- Start with a single H1 title.\n- Then use exactly these sections:\n"
    + "  ## Executive Summary\n  ## Key Points\n  ## Practical Tips / Recommendations\n"
    + "- Use bullet points where appropriate.\n- Keep the report under 500 words.\n"
    + "- Do NOT include the characters \"\\n\" in the text. Use real new lines instead.\n"
    + "- Output ONLY valid Markdown. No extra commentary.\n"

  function ReportPrompt(query: string, summary: string): string {
    Concat([ReportHead, query, SummaryHeading, summary, ReportRules])
  }

  /** `report.replace("\\n", "\n").strip()`. */
  function CleanReport(report: string): string {
    Strip(ReplaceEscapedNewlines(report))
  }

  /** A cleaned report holds no backslash-n pair. */
  lemma CleanReportHasNoEscapes(report: string)
    ensures !HasEscapedNewline(CleanReport(report))
  {
    ReplaceRemovesAll(report);
    StripCharsKeepsNoEscapes(ReplaceEscapedNewlines(report), Whitespace);
  }

  /** Cleaning a cleaned report changes nothing. */
  lemma CleanReportIdempotent(report: string)
    ensures CleanReport(CleanReport(report)) == CleanReport(report)
  {
    var c := CleanReport(report);
    CleanReportHasNoEscapes(report);
    ReplaceNoOp(c);
    StripIdempotent(ReplaceEscapedNewlines(report));
  }

  /** `report_writer_node`: ask the model for the report and clean it. */
  method ReportWriterNode(state: AgentState, cache: Cache, provider: ChatProvider, hash: string -> string)
    returns (r: Result<()>)
    modifies state`report, cache`entries
    ensures var asked := AskResult(old(cache.entries), cache.readable, provider, hash,
                                   ReportPrompt(state.query, state.summary), DefaultChatModel);
            && (asked.Ok? ==> r == Ok(()) && state.report == CleanReport(asked.value))
            && (asked.Err? ==> r == Err(asked.error) && state.report == old(state.report))
    ensures cache.entries == EntriesAfterAsk(old(cache.entries), cache.readable, cache.writable, provider, hash,
                                             ReportPrompt(state.query, state.summary), DefaultChatModel)
  {
    var prompt := ReportPrompt(state.query, state.summary);
    var report;
    ghost var calls;
    report, calls := cache.AskLlm(provider, hash, prompt, DefaultChatModel);
    if report.Err? {
      return Err(report.error);
    }
    state.report := Strip(ReplaceEscapedNewlines(report.value));
    r := Ok(());
  }
}
