/** The answer generator (app/services/llm_service.py): the citation prompt
    built from the search hits, and the shaping of the model's reply with the
    four-characters-per-token estimate. The model call is foreign code, given
    as `Generator`; the `:.2f` rendering of a similarity is given as
    `relevance`. */
module LlmService {
  import opened Common
  import opened Text
  import opened VectorService

  /** `llm_temperature` and `max_tokens` of the settings. */
  const DefaultTemperature: real := 0.1
  const DefaultMaxTokens: int := 1000

  const SystemInstruction: string :=
    "You are a helpful document assistant that provides accurate answers based on the provided context."

  /** The fixed parts of the prompt template, in order around the context and the question. */
  const ContextHeading: string := "CONTEXT FROM DOCUMENTS:\n"
  const QuestionHeading: string := "\n\nUSER QUESTION:\n"
  const Instructions: string := InstructionLines + AnswerCue

  /** The instruction heading and the five numbered instructions. */
  const InstructionLines: string := Concat([
    "\n\nINSTRUCTIONS:\n",
    "1. Answer the question using ONLY information from the context above\n",
    "2. If the context doesn't contain relevant information, say \"I don't have enough information to answer this question\"\n",
    "3. Cite sources by referencing [Source X] numbers\n",
    "4. Be concise and accurate\n",
    "5. Include page numbers when mentioning specific information\n"])

  /** The last line of the template, where the model's answer begins. */
  const AnswerCue: string := "\nANSWER:"

  /** What is sent to the model: its name, the system instruction, the prompt
      and the generation settings. */
  datatype Generation = Generation(
    modelName: string, systemInstruction: string, prompt: string, temperature: real, maxOutputTokens: int)

  /** `model.generate_content(...)` followed by `response.text`. */
  type Generator = Generation -> Call<string>

  datatype AnswerMetadata = AnswerMetadata(model: string, tokensUsed: nat, promptTokens: nat, completionTokens: nat)

  datatype Answer = Answer(answer: string, metadata: AnswerMetadata)

  /** `metadata.get('page_number', 'N/A')`, as the f-string prints it. */
  function PageLabel(metadata: Metadata): (r: string)
    ensures "page_number" !in metadata ==> r == "N/A"
    ensures "page_number" in metadata && metadata["page_number"].IntValue? ==> r == IntToString(metadata["page_number"].i)
    ensures "page_number" in metadata && metadata["page_number"].TextValue? ==> r == metadata["page_number"].s
  {
    if "page_number" !in metadata then "N/A"
    else match metadata["page_number"]
      case IntValue(n) => IntToString(n)
      case TextValue(s) => s
  }

  /** The opening of the citation line of source `number`. */
  function SourceTag(number: nat): string {
    "[Source " + NatToString(number) + ", "
  }

  /** The rest of a block after its source tag: the page, the rendered
      similarity, and the text of the hit. */
  function Citation(hit: Hit, relevance: real -> string): string {
    "Page " + PageLabel(hit.metadata) + ", Relevance: " + relevance(hit.similarity) + "]\n" + hit.content
  }

  /** The block of source `number`: its citation line, then its text. */
  function Block(number: nat, hit: Hit, relevance: real -> string): string {
    SourceTag(number) + Citation(hit, relevance)
  }

  /** The blocks of all hits, numbered from 1 in the order given. */
  function Blocks(hits: seq<Hit>, relevance: real -> string): seq<string> {
    seq(|hits|, k requires 0 <= k < |hits| => Block(k + 1, hits[k], relevance))
  }

  /** The prompt template filled with a context section and a question. */
  function Template(context: string, query: string): string {
    Concat([ContextHeading, context, QuestionHeading, query, Instructions])
  }

  /** The prompt `create_prompt` returns. */
  function PromptOf(query: string, hits: seq<Hit>, relevance: real -> string): string {
    Template(Join("\n\n", Blocks(hits, relevance)), query)
  }

  /** `create_prompt`, with its loop over the numbered hits. */
  method CreatePrompt(query: string, hits: seq<Hit>, relevance: real -> string) returns (prompt: string)
    ensures prompt == PromptOf(query, hits, relevance)
  {
    var contextParts: seq<string> := [];
    for i := 0 to |hits|
      invariant contextParts == Blocks(hits[..i], relevance)
    {
      contextParts := contextParts + [Block(i + 1, hits[i], relevance)];
    }
    assert hits[..|hits|] == hits;
    var contextText := Join("\n\n", contextParts);
    prompt := Template(contextText, query);
  }

  /** The template reads, in order: the context heading, the context, the
      question heading, the question, and the five instructions; nothing
      else is added. */
  lemma TemplateLayout(context: string, query: string)
    ensures var p := Template(context, query);
            var a := |ContextHeading|;
            var b := a + |context|;
            var c := b + |QuestionHeading|;
            var d := c + |query|;
            && |p| == d + |Instructions|
            && p[..a] == ContextHeading
            && p[a..b] == context
            && p[b..c] == QuestionHeading
            && p[c..d] == query
            && p[d..] == Instructions
  {
    ConcatFiveParts(ContextHeading, context, QuestionHeading, query, Instructions);
  }

  /** Every prompt ends with `ANSWER:` on a line of its own. */
  lemma TemplateEndsWithCue(context: string, query: string)
    ensures |Template(context, query)| >= |AnswerCue|
    ensures Template(context, query)[|Template(context, query)| - |AnswerCue|..] == AnswerCue
  {
    InstructionsEndWithCue();
    ConcatEndsWith([ContextHeading, context, QuestionHeading, query, Instructions], AnswerCue);
  }

  /** The instructions end with the answer cue. */
  lemma InstructionsEndWithCue()
    ensures |Instructions| >= |AnswerCue|
    ensures Instructions[|Instructions| - |AnswerCue|..] == AnswerCue
  {
    SuffixOfConcat(InstructionLines, AnswerCue);
  }

  /** Two prompts with equally long contexts are equal only when their
      contexts and questions are: the prompt loses nothing. */
  lemma TemplateInjective(c1: string, q1: string, c2: string, q2: string)
    requires |c1| == |c2| && Template(c1, q1) == Template(c2, q2)
    ensures c1 == c2 && q1 == q2
  {
    TemplateLayout(c1, q1);
    TemplateLayout(c2, q2);
  }

  /** Without hits the context section is empty. */
  lemma NoHitsEmptyContext(query: string, relevance: real -> string)
    ensures PromptOf(query, [], relevance) == ContextHeading + QuestionHeading + query + Instructions
  {
    assert Blocks([], relevance) == [];
    assert Join("\n\n", []) == "";
    ConcatFive(ContextHeading, "", QuestionHeading, query, Instructions);
    assert ContextHeading + "" == ContextHeading;
  }

  /** A source tag determines its number. */
  lemma SourceTagInjective(m: nat, n: nat, s: string, t: string)
    requires SourceTag(m) + s == SourceTag(n) + t
    ensures m == n
  {
    var a := NatToString(m);
    var b := NatToString(n);
    var x := SourceTag(m) + s;
    var y := SourceTag(n) + t;
    assert x[8..8 + |a|] == a && x[8 + |a|] == ',';
    assert y[8..8 + |b|] == b && y[8 + |b|] == ',';
    assert |a| == |b|;
    assert a == x[8..8 + |a|];
    NatToStringInjective(m, n);
  }

  /** Block `k` cites source `k + 1`: it opens with that number, the page of
      its hit (or `N/A`) and the rendered similarity, and ends with the hit's
      text. */
  lemma BlockLayout(hits: seq<Hit>, relevance: real -> string, k: nat)
    requires k < |hits|
    ensures |Blocks(hits, relevance)| == |hits|
    ensures var b := Blocks(hits, relevance)[k];
            var head := SourceTag(k + 1) + "Page " + PageLabel(hits[k].metadata) + ", Relevance: "
                        + relevance(hits[k].similarity);
            && |head| + 2 + |hits[k].content| == |b|
            && b[..|head|] == head
            && b[|head|..|head| + 2] == "]\n"
            && b[|head| + 2..] == hits[k].content
  {
  }

  /** No two blocks carry the same source number. */
  lemma BlocksDistinct(hits: seq<Hit>, relevance: real -> string, i: nat, j: nat)
    requires i < j < |hits|
    ensures Blocks(hits, relevance)[i] != Blocks(hits, relevance)[j]
  {
    var bi := Blocks(hits, relevance)[i];
    var bj := Blocks(hits, relevance)[j];
    assert bi == SourceTag(i + 1) + Citation(hits[i], relevance);
    assert bj == SourceTag(j + 1) + Citation(hits[j], relevance);
    if bi == bj {
      SourceTagInjective(i + 1, j + 1, Citation(hits[i], relevance), Citation(hits[j], relevance));
    }
  }

  /** `len(text) // 4`: the number of whole four-character groups. */
  function TokenEstimate(text: string): (t: nat)
    ensures 4 * t <= |text| < 4 * t + 4
  {
    |text| / 4
  }

  /** The `metadata` of the answer: the configured model and the estimated
      token counts, the total being the sum of the two estimates. */
  function Usage(modelName: string, prompt: string, answer: string): (m: AnswerMetadata)
    ensures m.model == modelName
    ensures m.tokensUsed == m.promptTokens + m.completionTokens
    ensures 4 * m.promptTokens <= |prompt| < 4 * m.promptTokens + 4
    ensures 4 * m.completionTokens <= |answer| < 4 * m.completionTokens + 4
    ensures 4 * m.tokensUsed <= |prompt| + |answer| < 4 * m.tokensUsed + 8
  {
    var promptTokens := TokenEstimate(prompt);
    var completionTokens := TokenEstimate(answer);
    AnswerMetadata(modelName, promptTokens + completionTokens, promptTokens, completionTokens)
  }

  /** The request `generate_answer` sends for a prompt. */
  function RequestFor(modelName: string, prompt: string): Generation {
    Generation(modelName, SystemInstruction, prompt, DefaultTemperature, DefaultMaxTokens)
  }

  /** `generate_answer`: build the prompt, ask the model once, and report
      the answer with the model name and the token estimates; a failure of
      the model becomes an `LLMError`. */
  method GenerateAnswer(generator: Generator, modelName: string, query: string, hits: seq<Hit>,
                        relevance: real -> string)
    returns (r: Result<Answer>)
    ensures var reply := generator(RequestFor(modelName, PromptOf(query, hits, relevance)));
            && (reply.Raised? ==> r == Err(Error(LLM, "Failed to generate answer: " + reply.message)))
            && (reply.Returned? ==>
                  r == Ok(Answer(reply.value, Usage(modelName, PromptOf(query, hits, relevance), reply.value))))
  {
    var prompt := CreatePrompt(query, hits, relevance);
    var response := generator(Generation(modelName, SystemInstruction, prompt, DefaultTemperature, DefaultMaxTokens));
    if response.Raised? {
      return Err(Error(LLM, "Failed to generate answer: " + response.message));
    }
    var answer := response.value;
    var promptTokens := |prompt| / 4;
    var completionTokens := |answer| / 4;
    r := Ok(Answer(answer, AnswerMetadata(modelName, promptTokens + completionTokens, promptTokens, completionTokens)));
  }

  /** The token total of a successful answer grows with the prompt: every
      four characters of context or question add one token. */
  lemma PromptTokensFromLayout(modelName: string, query: string, hits: seq<Hit>, relevance: real -> string, answer: string)
    ensures var context := Join("\n\n", Blocks(hits, relevance));
            var m := Usage(modelName, PromptOf(query, hits, relevance), answer);
            4 * m.promptTokens <= |ContextHeading| + |context| + |QuestionHeading| + |query| + |Instructions|
              < 4 * m.promptTokens + 4
  {
    TemplateLayout(Join("\n\n", Blocks(hits, relevance)), query);
  }
}
