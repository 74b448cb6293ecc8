/** The serverless entry point (api/index.py): an in-memory store of
    uploaded texts keyed by file name, and a one-call markdown agent whose
    system prompt depends on how long the joined texts are. The chat model is
    foreign code, given as `ChatProvider`; the file readers are the
    `Extractors` of the document service; the API key is a parameter. */
module Serverless {
  import opened Common
  import opened Text
  import opened DocumentService
  import opened AgentLlm
  import opened AgentNodes

  /** The context length from which the strict prompt is used. */
  const ContextThreshold: nat := 500

  const MissingKeyReply: string := "OPENAI_API_KEY not configured"
  const UnsupportedReply: string := "Unsupported file type"
  const UploadedReply: string := "Document uploaded"
  const PdfPlaceholder: string := "[PDF parsing not available]"
  const DocxPlaceholder: string := "[DOCX parsing not available]"
  const NoDocumentsText: string := "No documents uploaded."

  /** The two system prompts. */
  const StrictSystemPrompt: string := Concat([
    "You are a document summarization assistant.\n",
    "Summarize ONLY what is in the provided document context.\n",
    "Do NOT add external information."])
  const HybridSystemPrompt: string := Concat([
    "You are a helpful research assistant.\n",
    "If document context is provided, prefer using it.\n",
    "You may supplement with your own knowledge if needed."])

  /** The fixed parts of the user prompt, around the context and the query. */
  const ContextLabel: string := "\nDocument Context:\n"
  const QueryLabel: string := "\n\nQuery: "
  const FormatRequest: string := Concat([
    "\n\nProvide a well-structured markdown response with:\n",
    "# Title\n## Summary\n## Key Points\n"])

  const MarkdownModel: string := "gpt-4o-mini"
  const MarkdownTemperature: real := 0.3

  /** What an endpoint answers: a markdown body, the JSON of a stored upload,
      a plain body with a status code, or an exception that escapes the
      handler (FastAPI answers it with 500). */
  datatype Reply =
    | Markdown(report: string)
    | Uploaded(message: string, filename: string)
    | Status(code: int, body: string)
    | Crashed(message: string)

  /** `documents_content`: a dictionary from file name to text. `names` is
      its key order: the order of first insertion. */
  class DocumentsContent {
    var names: seq<string>
    var texts: map<string, string>

    ghost predicate Valid()
      reads this
    {
      && (forall i, j :: 0 <= i < j < |names| ==> names[i] != names[j])
      && (forall n :: n in texts <==> n in names)
    }

    constructor()
      ensures Valid() && names == [] && texts == map[]
    {
      names := [];
      texts := map[];
    }

    /** `documents_content.values()`, in key order. */
    function Values(): (vs: seq<string>)
      reads this
      requires Valid()
      ensures |vs| == |names|
      ensures forall i :: 0 <= i < |names| ==> vs[i] == texts[names[i]]
    {
      seq(|names|, i requires 0 <= i < |names| && names[i] in texts reads this => texts[names[i]])
    }

    /** `documents_content[filename] = text`: a new name goes last; an
        existing one keeps its place and gets the new text. */
    method Put(filename: string, text: string)
      requires Valid()
      modifies this`names, this`texts
      ensures Valid()
      ensures texts == old(texts)[filename := text]
      ensures filename !in old(texts) ==> names == old(names) + [filename]
      ensures filename in old(texts) ==> names == old(names)
    {
      if filename !in texts {
        names := names + [filename];
      }
      texts := texts[filename := text];
    }
  }

  /** A re-upload under a known name replaces that text in place; a new name
      adds its text last; every other text stays where it was. */
  lemma PutValues(names: seq<string>, texts: map<string, string>, filename: string, text: string)
    requires forall n :: n in names ==> n in texts
    requires forall i, j :: 0 <= i < j < |names| ==> names[i] != names[j]
    ensures var after := texts[filename := text];
            filename in names ==>
              forall i :: 0 <= i < |names| ==> after[names[i]] == (if names[i] == filename then text else texts[names[i]])
    ensures var after := texts[filename := text];
            filename !in names ==>
              (forall i :: 0 <= i < |names| ==> after[names[i]] == texts[names[i]])
              && (names + [filename])[|names|] == filename && after[filename] == text
  {
  }

  // ---------------------------------------------------------------------------
  // run_agent_markdown

  /** The context: the texts joined by blank lines, or empty with no texts. */
  function Context(values: seq<string>): string {
    if values == [] then "" else Join("\n\n", values)
  }

  /** The context is empty only with no texts or a single empty text. */
  lemma ContextEmpty(values: seq<string>)
    ensures Context(values) == "" <==> values == [] || values == [""]
  {
    if |values| >= 2 {
      assert Join("\n\n", values) == values[0] + "\n\n" + Join("\n\n", values[1..]);
    }
  }

  /** Strict mode: 500 characters of context or more, counted as they are,
      spaces included. */
  predicate LongContext(context: string) {
    |context| >= ContextThreshold
  }

  /** The system prompt of each mode. */
  function SystemPromptFor(context: string): string {
    if LongContext(context) then StrictSystemPrompt else HybridSystemPrompt
  }

  /** The user prompt: the context, or a placeholder when it is empty, then
      the query and the format request. */
  function UserPrompt(context: string, query: string): string {
    Concat([ContextLabel, if context == "" then NoDocumentsText else context, QueryLabel, query, FormatRequest])
  }

  /** The one chat request: system prompt, then user prompt. */
  function MarkdownRequest(context: string, query: string): (q: ChatRequest)
    ensures q.model == MarkdownModel && q.temperature == MarkdownTemperature && |q.messages| == 2
    ensures q.messages[0] == Message("system", SystemPromptFor(context))
    ensures q.messages[1] == Message("user", UserPrompt(context, query))
  {
    ChatRequest(MarkdownModel, [Message("system", SystemPromptFor(context)), Message("user", UserPrompt(context, query))],
                MarkdownTemperature)
  }

  /** What `run_agent_markdown` answers for the stored texts. */
  function MarkdownOutcome(values: seq<string>, apiKey: Option<string>, query: string, provider: ChatProvider): Reply {
    if apiKey.None? || apiKey.value == "" then Status(500, MissingKeyReply)
    else
      match provider(MarkdownRequest(Context(values), query))
      case Returned(report) => Markdown(report)
      case Raised(msg) => Crashed(msg)
  }

  /** `run_agent_markdown`: the store is only read. */
  method RunAgentMarkdown(docs: DocumentsContent, apiKey: Option<string>, query: string, provider: ChatProvider)
    returns (r: Reply)
    requires docs.Valid()
    ensures r == MarkdownOutcome(docs.Values(), apiKey, query, provider)
  {
    if apiKey.None? || apiKey.value == "" {
      return Status(500, MissingKeyReply);
    }
    var context := if |docs.names| > 0 then Join("\n\n", docs.Values()) else "";
    var systemPrompt := if |context| >= ContextThreshold then StrictSystemPrompt else HybridSystemPrompt;
    var userPrompt := UserPrompt(context, query);
    var response := provider(ChatRequest(MarkdownModel, [Message("system", systemPrompt), Message("user", userPrompt)],
                                         MarkdownTemperature));
    if response.Raised? {
      return Crashed(response.message);
    }
    r := Markdown(response.value);
  }

  /** Without a key the answer is the 500 reply, before any model call and
      whatever is stored. */
  lemma MissingKeyNoCall(v1: seq<string>, v2: seq<string>, apiKey: Option<string>, query: string,
                         p1: ChatProvider, p2: ChatProvider)
    requires apiKey.None? || apiKey.value == ""
    ensures MarkdownOutcome(v1, apiKey, query, p1) == MarkdownOutcome(v2, apiKey, query, p2)
              == Status(500, MissingKeyReply)
  {
  }

  /** The strict prompt is chosen exactly when the joined texts and their
      blank-line separators reach 500 characters. */
  lemma LongContextLength(values: seq<string>)
    requires values != []
    ensures LongContext(Context(values)) <==> TotalLength(values) + 2 * (|values| - 1) >= ContextThreshold
  {
    JoinLength("\n\n", values);
  }

  /** The two entry points disagree on blank context: 500 spaces select the
      strict prompt here, while the agent's summarizer, which strips first,
      stays hybrid. */
  lemma BlankContextModes(context: string)
    requires IsBlank(context) && |context| >= ContextThreshold
    ensures LongContext(context) && !StrictMode(context)
  {
  }

  /** The user prompt reads, in order: the context label, the context or the
      placeholder, the query label, the query and the format request. */
  lemma UserPromptLayout(context: string, query: string)
    ensures var shown := if context == "" then NoDocumentsText else context;
            var p := UserPrompt(context, query);
            var a := |ContextLabel|;
            var b := a + |shown|;
            var c := b + |QueryLabel|;
            var d := c + |query|;
            && |p| == d + |FormatRequest|
            && p[..a] == ContextLabel && p[a..b] == shown && p[b..c] == QueryLabel && p[c..d] == query
            && p[d..] == FormatRequest
  {
    var shown := if context == "" then NoDocumentsText else context;
    ConcatFiveParts(ContextLabel, shown, QueryLabel, query, FormatRequest);
  }

  // ---------------------------------------------------------------------------
  // upload_document

  /** `s.endswith(suffix)`. */
  predicate HasSuffix(s: string, suffix: string) {
    |suffix| <= |s| && s[|s| - |suffix|..] == suffix
  }

  /** The text `upload_document` stores, chosen by the lower-cased name: the
      decoded text of a `.txt` file (a decoding error escapes), all page or
      paragraph texts of a `.pdf` or `.docx` file joined by line breaks, or a
      placeholder when that reader fails; `None` for any other name. */
  function UploadText(filename: string, contents: seq<bv8>, extractors: Extractors): (r: Option<Call<string>>)
    ensures r.None? <==> !HasSuffix(Lower(filename), ".txt") && !HasSuffix(Lower(filename), ".pdf")
                         && !HasSuffix(Lower(filename), ".docx")
    ensures r.Some? && r.value.Raised? ==> HasSuffix(Lower(filename), ".txt")
    ensures HasSuffix(Lower(filename), ".txt") ==> r == Some(extractors.utf8(contents))
    ensures (!HasSuffix(Lower(filename), ".txt") && HasSuffix(Lower(filename), ".pdf")
             && extractors.pdfPages(contents).Raised?) ==> r == Some(Returned(PdfPlaceholder))
    ensures (!HasSuffix(Lower(filename), ".txt") && !HasSuffix(Lower(filename), ".pdf")
             && HasSuffix(Lower(filename), ".docx") && extractors.docxParagraphs(contents).Raised?) ==>
              r == Some(Returned(DocxPlaceholder))
  {
    var name := Lower(filename);
    if HasSuffix(name, ".txt") then Some(extractors.utf8(contents))
    else if HasSuffix(name, ".pdf") then
      match extractors.pdfPages(contents)
      case Returned(pages) => Some(Returned(Join("\n", pages)))
      case Raised(_) => Some(Returned(PdfPlaceholder))
    else if HasSuffix(name, ".docx") then
      match extractors.docxParagraphs(contents)
      case Returned(paragraphs) => Some(Returned(Join("\n", paragraphs)))
      case Raised(_) => Some(Returned(DocxPlaceholder))
    else None
  }

  /** The parsing half of `upload_document`. */
  method ReadUpload(filename: string, contents: seq<bv8>, extractors: Extractors) returns (t: Option<Call<string>>)
    ensures t == UploadText(filename, contents, extractors)
  {
    var name := Lower(filename);
    if HasSuffix(name, ".txt") {
      t := Some(extractors.utf8(contents));
    } else if HasSuffix(name, ".pdf") {
      var pages := extractors.pdfPages(contents);
      t := Some(Returned(if pages.Returned? then Join("\n", pages.value) else PdfPlaceholder));
    } else if HasSuffix(name, ".docx") {
      var paragraphs := extractors.docxParagraphs(contents);
      t := Some(Returned(if paragraphs.Returned? then Join("\n", paragraphs.value) else DocxPlaceholder));
    } else {
      t := None;
    }
  }

  /** `upload_document`: store the text under the name as given (not lower
      cased); an unsupported name is a 400 and a decoding error escapes,
      both with the store unchanged. */
  method UploadDocument(docs: DocumentsContent, filename: string, contents: seq<bv8>, extractors: Extractors)
    returns (r: Reply)
    requires docs.Valid()
    modifies docs`names, docs`texts
    ensures docs.Valid()
    ensures var t := UploadText(filename, contents, extractors);
            && (t.None? ==> r == Status(400, UnsupportedReply))
            && (t.Some? && t.value.Raised? ==> r == Crashed(t.value.message))
            && (t.None? || t.value.Raised? ==> docs.names == old(docs.names) && docs.texts == old(docs.texts))
            && (t.Some? && t.value.Returned? ==>
                  && r == Uploaded(UploadedReply, filename)
                  && docs.texts == old(docs.texts)[filename := t.value.value]
                  && docs.names == (if filename in old(docs.texts) then old(docs.names) else old(docs.names) + [filename]))
  {
    var text := ReadUpload(filename, contents, extractors);
    if text.None? {
      return Status(400, UnsupportedReply);
    }
    if text.value.Raised? {
      return Crashed(text.value.message);
    }
    docs.Put(filename, text.value.value);
    r := Uploaded(UploadedReply, filename);
  }

  /** The text after the last dot of a string ending in a dot and a dotless
      extension is that extension. */
  lemma {:induction false} AfterLastDotOfSuffix(s: string, ext: string)
    requires '.' !in ext && HasSuffix(s, "." + ext)
    ensures AfterLastDot(s) == ext
    decreases |ext|
  {
    if ext == [] {
      assert s[|s| - 1] == '.';
    } else {
      var init := s[..|s| - 1];
      var e := ext[..|ext| - 1];
      assert s[|s| - 1] == ext[|ext| - 1];
      assert ("." + ext)[..|ext|] == "." + e;
      assert init[|init| - |"." + e|..] == s[|s| - |"." + ext|..][..|ext|];
      assert '.' !in e by {
        forall i | 0 <= i < |e| ensures e[i] != '.' { assert e[i] == ext[i]; }
      }
      AfterLastDotOfSuffix(init, e);
      assert ext == e + [ext[|ext| - 1]];
    }
  }

  /** The serverless suffix test and the document service's parser key agree
      for the three extensions: the lower-cased name ends with `.ext` exactly
      when the text after its last dot is `ext`. */
  lemma SuffixAgreesWithParserKey(filename: string, ext: string)
    requires ext in {"txt", "pdf", "docx"}
    ensures HasSuffix(Lower(filename), "." + ext) <==> ParserKey(filename) == ext
  {
    assert '.' !in ext;
    if HasSuffix(Lower(filename), "." + ext) {
      SuffixGivesKey(filename, ext);
    }
    if ParserKey(filename) == ext {
      KeyGivesSuffix(filename, ext);
    }
  }

  lemma SuffixGivesKey(filename: string, ext: string)
    requires '.' !in ext && HasSuffix(Lower(filename), "." + ext)
    ensures ParserKey(filename) == ext
  {
    var name := Lower(filename);
    var i := |name| - |ext| - 1;
    assert name[i] == ("." + ext)[0];
    LowerKeepsDots(filename, i);
    assert filename[i] in filename;
    AfterLastDotOfSuffix(name, ext);
  }

  lemma KeyGivesSuffix(filename: string, ext: string)
    requires ext != [] && ParserKey(filename) == ext
    ensures HasSuffix(Lower(filename), "." + ext)
  {
    var name := Lower(filename);
    var r := AfterLastDot(name);
    assert r == ext && '.' in filename;
    var k :| 0 <= k < |filename| && filename[k] == '.';
    LowerKeepsDots(filename, k);
    assert name[k] == '.' && name[k] in name;
    assert |r| < |name|;
    assert name[|name| - |r| - 1..] == [name[|name| - |r| - 1]] + name[|name| - |r|..];
  }
}
