/** The sentence chunker (app/utils/chunking.py): a regular-expression sentence
    splitter, the greedy buffer loop of `create_chunks` with its backward
    overlap scan, and `chunk_document`, which chunks page by page and numbers
    the chunks across the whole document. */
module Chunking {
  import opened Common
  import opened Text
  import opened DocumentService

  /** `chunk_size` and `chunk_overlap` of the settings. */
  const DefaultChunkSize: int := 1000
  const DefaultOverlap: int := 200

  /** The characters after which the splitter may cut. */
  const Terminators: set<char> := {'.', '!', '?'}

  // ---------------------------------------------------------------------------
  // split_into_sentences

  /** Position `k` of `s` is where `(?<=[.!?])\s+` can start to match: a
      whitespace character right after a terminator. */
  predicate IsBoundary(s: string, k: int) {
    0 < k < |s| && IsSpace(s[k]) && s[k - 1] in Terminators
  }

  ghost predicate HasNoBoundary(s: string) {
    forall k :: !IsBoundary(s, k)
  }

  /** The leftmost match position at or after `from`, or `|s|` if none. */
  function FirstBoundary(s: string, from: nat): (k: nat)
    requires from <= |s|
    ensures from <= k <= |s|
    ensures k < |s| ==> IsBoundary(s, k)
    ensures forall j :: from <= j < k ==> !IsBoundary(s, j)
    decreases |s| - from
  {
    if from == |s| || IsBoundary(s, from) then from else FirstBoundary(s, from + 1)
  }

  /** The end of the greedy `\s+` match that starts at `from`. */
  function SpaceRunEnd(s: string, from: nat): (e: nat)
    requires from <= |s|
    ensures from <= e <= |s|
    ensures forall j :: from <= j < e ==> IsSpace(s[j])
    ensures e < |s| ==> !IsSpace(s[e])
    decreases |s| - from
  {
    if from == |s| || !IsSpace(s[from]) then from else SpaceRunEnd(s, from + 1)
  }

  /** `re.split(r'(?<=[.!?])\s+', s)`: cut at every maximal whitespace run
      that follows a terminator. The match cannot begin inside a run, since the
      character before it would be whitespace. */
  function RegexSplit(s: string): (pieces: seq<string>)
    ensures pieces != []
    decreases |s|
  {
    var k := FirstBoundary(s, 0);
    if k == |s| then [s] else [s[..k]] + RegexSplit(s[SpaceRunEnd(s, k)..])
  }

  /** The non-whitespace characters of all `pieces`, in order. */
  function NonSpaceOfAll(pieces: seq<string>): string {
    if pieces == [] then [] else NonSpace(pieces[0]) + NonSpaceOfAll(pieces[1..])
  }

  /** No piece contains a cut point. */
  ghost predicate NoneHasBoundary(pieces: seq<string>) {
    forall i :: 0 <= i < |pieces| ==> HasNoBoundary(pieces[i])
  }

  predicate EndsWithTerminator(p: string) {
    p != [] && p[|p| - 1] in Terminators
  }

  /** Every piece but the last ends with a terminator. */
  predicate InnerPiecesTerminated(pieces: seq<string>) {
    forall i :: 0 <= i < |pieces| - 1 ==> EndsWithTerminator(pieces[i])
  }

  lemma ConsNoBoundary(head: string, tail: seq<string>)
    requires HasNoBoundary(head) && NoneHasBoundary(tail)
    ensures NoneHasBoundary([head] + tail)
  {
    forall i | 0 < i < |[head] + tail| ensures HasNoBoundary(([head] + tail)[i]) {
      assert ([head] + tail)[i] == tail[i - 1];
    }
  }

  lemma ConsTerminated(head: string, tail: seq<string>)
    requires EndsWithTerminator(head) && InnerPiecesTerminated(tail)
    ensures InnerPiecesTerminated([head] + tail)
  {
    forall i | 0 < i < |[head] + tail| - 1 ensures EndsWithTerminator(([head] + tail)[i]) {
      assert ([head] + tail)[i] == tail[i - 1];
    }
  }

  lemma ConsNonSpace(head: string, tail: seq<string>)
    ensures NonSpaceOfAll([head] + tail) == NonSpace(head) + NonSpaceOfAll(tail)
  {
    assert ([head] + tail)[1..] == tail;
  }

  /** The first piece of a text that has a cut point ends just before it. */
  lemma HeadHasNoBoundary(s: string)
    ensures HasNoBoundary(s[..FirstBoundary(s, 0)])
  {
    var k := FirstBoundary(s, 0);
    forall j | IsBoundary(s[..k], j) ensures IsBoundary(s, j) { }
  }

  /** No piece of the split contains a cut point. */
  lemma {:induction false} RegexSplitNoBoundary(s: string)
    ensures NoneHasBoundary(RegexSplit(s))
    decreases |s|
  {
    var k := FirstBoundary(s, 0);
    HeadHasNoBoundary(s);
    if k == |s| {
      assert s[..k] == s;
    } else {
      var rest := s[SpaceRunEnd(s, k)..];
      RegexSplitNoBoundary(rest);
      ConsNoBoundary(s[..k], RegexSplit(rest));
    }
  }

  /** Every piece of the split but the last ends with a terminator. */
  lemma {:induction false} RegexSplitTerminated(s: string)
    ensures InnerPiecesTerminated(RegexSplit(s))
    decreases |s|
  {
    var k := FirstBoundary(s, 0);
    if k < |s| {
      var rest := s[SpaceRunEnd(s, k)..];
      RegexSplitTerminated(rest);
      ConsTerminated(s[..k], RegexSplit(rest));
    }
  }

  /** The split drops whitespace only. */
  lemma {:induction false} RegexSplitKeepsNonSpace(s: string)
    ensures NonSpaceOfAll(RegexSplit(s)) == NonSpace(s)
    decreases |s|
  {
    var k := FirstBoundary(s, 0);
    if k == |s| {
      ConsNonSpace(s, []);
    } else {
      var e := SpaceRunEnd(s, k);
      var rest := s[e..];
      assert s == s[..k] + s[k..e] + rest;
      calc {
        NonSpaceOfAll(RegexSplit(s));
        NonSpaceOfAll([s[..k]] + RegexSplit(rest));
        { ConsNonSpace(s[..k], RegexSplit(rest)); }
        NonSpace(s[..k]) + NonSpaceOfAll(RegexSplit(rest));
        { RegexSplitKeepsNonSpace(rest); }
        NonSpace(s[..k]) + NonSpace(rest);
        { WithoutEmpty(s[k..e], Whitespace); }
        NonSpace(s[..k]) + NonSpace(s[k..e]) + NonSpace(rest);
        { WithoutAppend(s[..k], s[k..e], Whitespace); }
        NonSpace(s[..k] + s[k..e]) + NonSpace(rest);
        { WithoutAppend(s[..k] + s[k..e], rest, Whitespace); }
        NonSpace(s);
      }
    }
  }

  /** A sentence with no surrounding whitespace and at least one character. */
  predicate IsTrimmed(t: string) {
    t != [] && !IsSpace(t[0]) && !IsSpace(t[|t| - 1])
  }

  /** The stripped pieces that are not empty. */
  function StrippedNonBlank(pieces: seq<string>): (r: seq<string>)
    ensures |r| <= |pieces|
    ensures forall i :: 0 <= i < |r| ==> IsTrimmed(r[i])
  {
    if pieces == [] then []
    else (if Strip(pieces[0]) == [] then [] else [Strip(pieces[0])]) + StrippedNonBlank(pieces[1..])
  }

  /** `split_into_sentences`: `[s.strip() for s in re.split(...) if s.strip()]`.
      Every sentence is non-empty and has no surrounding whitespace. */
  function SplitIntoSentences(text: string): (sentences: seq<string>)
    ensures forall i :: 0 <= i < |sentences| ==> IsTrimmed(sentences[i])
  {
    StrippedNonBlank(RegexSplit(text))
  }

  lemma StripKeepsNoBoundary(p: string)
    ensures HasNoBoundary(p) ==> HasNoBoundary(Strip(p))
  {
    var r := Strip(p);
    var a := LeftCut(p, Whitespace);
    forall j | IsBoundary(r, j) ensures IsBoundary(p, a + j) {
      assert r[j] == p[a + j] && r[j - 1] == p[a + j - 1];
    }
  }

  lemma StripKeepsLastChar(p: string)
    requires p != [] && !IsSpace(p[|p| - 1])
    ensures Strip(p) != [] && Strip(p)[|Strip(p)| - 1] == p[|p| - 1]
  {
    var r := Strip(p);
    var a := LeftCut(p, Whitespace);
    assert !IsBlank(p);
    assert a + |r| == |p|;
  }

  lemma {:induction false} StrippedNoBoundary(pieces: seq<string>)
    requires NoneHasBoundary(pieces)
    ensures NoneHasBoundary(StrippedNonBlank(pieces))
  {
    if pieces != [] {
      var p := pieces[0];
      var tail := StrippedNonBlank(pieces[1..]);
      assert NoneHasBoundary(pieces[1..]) by {
        forall i | 0 <= i < |pieces[1..]| ensures HasNoBoundary(pieces[1..][i]) {
          assert pieces[1..][i] == pieces[i + 1];
        }
      }
      StrippedNoBoundary(pieces[1..]);
      if Strip(p) != [] {
        StripKeepsNoBoundary(p);
        ConsNoBoundary(Strip(p), tail);
      }
    }
  }

  lemma {:induction false} StrippedTerminated(pieces: seq<string>)
    requires InnerPiecesTerminated(pieces)
    ensures InnerPiecesTerminated(StrippedNonBlank(pieces))
  {
    if |pieces| > 1 {
      var p := pieces[0];
      var tail := StrippedNonBlank(pieces[1..]);
      assert InnerPiecesTerminated(pieces[1..]) by {
        forall i | 0 <= i < |pieces[1..]| - 1 ensures EndsWithTerminator(pieces[1..][i]) {
          assert pieces[1..][i] == pieces[i + 1];
        }
      }
      StrippedTerminated(pieces[1..]);
      assert EndsWithTerminator(p);
      StripKeepsLastChar(p);
      ConsTerminated(Strip(p), tail);
    }
  }

  lemma {:induction false} StrippedKeepsNonSpace(pieces: seq<string>)
    ensures NonSpaceOfAll(StrippedNonBlank(pieces)) == NonSpaceOfAll(pieces)
  {
    if pieces != [] {
      var p := pieces[0];
      var tail := StrippedNonBlank(pieces[1..]);
      StrippedKeepsNonSpace(pieces[1..]);
      NonSpaceStrip(p);
      if Strip(p) == [] {
        assert StrippedNonBlank(pieces) == [] + tail == tail;
        assert NonSpace(p) == NonSpace([]) == [];
      } else {
        assert StrippedNonBlank(pieces) == [Strip(p)] + tail;
        ConsNonSpace(Strip(p), tail);
      }
    }
  }

  /** The sentences are the text cut exactly at the whitespace runs that follow
      a terminator: none of them holds such a cut point, every one but the last
      ends with a terminator, no non-whitespace character is lost, and there
      are none exactly when the text is blank. */
  lemma SentencesCharacterized(text: string)
    ensures NoneHasBoundary(SplitIntoSentences(text))
    ensures InnerPiecesTerminated(SplitIntoSentences(text))
    ensures NonSpaceOfAll(SplitIntoSentences(text)) == NonSpace(text)
    ensures SplitIntoSentences(text) == [] <==> IsBlank(text)
  {
    var ss := SplitIntoSentences(text);
    RegexSplitNoBoundary(text);
    StrippedNoBoundary(RegexSplit(text));
    RegexSplitTerminated(text);
    StrippedTerminated(RegexSplit(text));
    RegexSplitKeepsNonSpace(text);
    StrippedKeepsNonSpace(RegexSplit(text));
    WithoutEmpty(text, Whitespace);
    if ss != [] {
      ConsNonSpace(ss[0], ss[1..]);
      assert [ss[0]] + ss[1..] == ss;
      assert NonSpace(ss[0]) != [];
    }
  }

  // ---------------------------------------------------------------------------
  // create_chunks

  /** A chunk dictionary: `content` and `metadata` from `create_chunks`, then
      `chunk_id` from `chunk_document` and `embedding` from `embed_chunks`. */
  datatype Chunk = Chunk(
    content: string,
    metadata: Metadata,
    chunkId: Option<string> := None,
    embedding: Option<Vector> := None)

  /** The sentences of one chunk: the overlap carried over from the previous
      chunk, then the sentences this chunk adds. */
  datatype Group = Group(carried: seq<string>, added: seq<string>) {
    function Sentences(): seq<string> {
      carried + added
    }
  }

  /** The loop state of `create_chunks` after some sentences: the chunks
      already closed and the open buffer `current_chunk`. */
  datatype Progress = Progress(closed: seq<Group>, open: Group)

  /** The overlap scan: walk back from the last sentence while the running
      total stays within `budget`; stop at the first sentence that does not fit. */
  function Carry(sentences: seq<string>, budget: int): seq<string>
    decreases |sentences|
  {
    if sentences == [] then []
    else
      var last := sentences[|sentences| - 1];
      if |last| <= budget then Carry(sentences[..|sentences| - 1], budget - |last|) + [last] else []
  }

  /** One iteration of the loop over sentences. The budget test adds the new
      sentence's length to the buffer's sentence lengths; the joining spaces
      are not counted. */
  function Step(p: Progress, sentence: string, chunkSize: int, overlap: int): Progress {
    var current := p.open.Sentences();
    if TotalLength(current) + |sentence| > chunkSize && current != [] then
      Progress(p.closed + [p.open], Group(Carry(current, overlap), [sentence]))
    else
      Progress(p.closed, Group(p.open.carried, p.open.added + [sentence]))
  }

  function Run(sentences: seq<string>, chunkSize: int, overlap: int): Progress
    decreases |sentences|
  {
    if sentences == [] then Progress([], Group([], []))
    else Step(Run(sentences[..|sentences| - 1], chunkSize, overlap), sentences[|sentences| - 1], chunkSize, overlap)
  }

  /** The chunks' sentence groups: the closed ones and the final buffer if it
      is not empty. */
  function Groups(sentences: seq<string>, chunkSize: int, overlap: int): seq<Group> {
    FinalOf(Run(sentences, chunkSize, overlap))
  }

  /** The sentences the groups add, in order. */
  function AddedOf(groups: seq<Group>): seq<string> {
    if groups == [] then [] else AddedOf(groups[..|groups| - 1]) + groups[|groups| - 1].added
  }

  /** A group within the size budget, or one that adds a single sentence. */
  predicate WithinBudget(g: Group, chunkSize: int) {
    TotalLength(g.Sentences()) <= chunkSize || |g.added| <= 1
  }

  /** The loop keeps three facts about its state: the sentences added so far
      are the ones processed; every group is within budget; and each group
      carries the overlap of the one before it. */
  ghost predicate LoopInvariant(p: Progress, processed: seq<string>, chunkSize: int, overlap: int) {
    && AddedOf(p.closed) + p.open.added == processed
    && BudgetKept(p, chunkSize)
    && OverlapsLinked(p, overlap)
  }

  ghost predicate BudgetKept(p: Progress, chunkSize: int) {
    && (forall i :: 0 <= i < |p.closed| ==> p.closed[i].added != [] && WithinBudget(p.closed[i], chunkSize))
    && (p.open.added == [] ==> p.open.carried == [])
    && WithinBudget(p.open, chunkSize)
  }

  ghost predicate OverlapsLinked(p: Progress, overlap: int) {
    && (|p.closed| == 0 ==> p.open.carried == [])
    && (|p.closed| > 0 ==> p.closed[0].carried == [])
    && (forall i :: 0 < i < |p.closed| ==> p.closed[i].carried == Carry(p.closed[i - 1].Sentences(), overlap))
    && (|p.closed| > 0 ==> p.open.carried == Carry(p.closed[|p.closed| - 1].Sentences(), overlap))
  }

  /** Whether a step flushes the buffer. */
  predicate Flushes(p: Progress, sentence: string, chunkSize: int) {
    TotalLength(p.open.Sentences()) + |sentence| > chunkSize && p.open.Sentences() != []
  }

  lemma StepKeepsCoverage(p: Progress, processed: seq<string>, sentence: string, chunkSize: int, overlap: int)
    requires AddedOf(p.closed) + p.open.added == processed
    ensures var q := Step(p, sentence, chunkSize, overlap);
            AddedOf(q.closed) + q.open.added == processed + [sentence]
  {
    var q := Step(p, sentence, chunkSize, overlap);
    if Flushes(p, sentence, chunkSize) {
      assert q.closed == p.closed + [p.open];
      assert q.closed[..|q.closed| - 1] == p.closed;
      assert AddedOf(q.closed) == AddedOf(p.closed) + p.open.added;
    } else {
      assert AddedOf(p.closed) + q.open.added == (AddedOf(p.closed) + p.open.added) + [sentence];
    }
  }

  lemma StepKeepsBudget(p: Progress, sentence: string, chunkSize: int, overlap: int)
    requires BudgetKept(p, chunkSize)
    ensures BudgetKept(Step(p, sentence, chunkSize, overlap), chunkSize)
  {
    var q := Step(p, sentence, chunkSize, overlap);
    if Flushes(p, sentence, chunkSize) {
      assert q.closed == p.closed + [p.open];
      assert p.open.added != [];
      assert |q.open.added| == 1;
    } else {
      assert q.open.Sentences() == p.open.Sentences() + [sentence];
      TotalLengthAppend(p.open.Sentences(), [sentence]);
      assert TotalLength([sentence]) == TotalLength([]) + |sentence|;
    }
  }

  lemma StepKeepsLinks(p: Progress, sentence: string, chunkSize: int, overlap: int)
    requires OverlapsLinked(p, overlap)
    ensures OverlapsLinked(Step(p, sentence, chunkSize, overlap), overlap)
  {
    var q := Step(p, sentence, chunkSize, overlap);
    if Flushes(p, sentence, chunkSize) {
      assert q.closed == p.closed + [p.open];
      assert q.open.carried == Carry(p.open.Sentences(), overlap);
    } else {
      assert q.closed == p.closed && q.open.carried == p.open.carried;
    }
  }

  lemma StepKeepsInvariant(p: Progress, processed: seq<string>, sentence: string, chunkSize: int, overlap: int)
    requires LoopInvariant(p, processed, chunkSize, overlap)
    ensures LoopInvariant(Step(p, sentence, chunkSize, overlap), processed + [sentence], chunkSize, overlap)
  {
    StepKeepsCoverage(p, processed, sentence, chunkSize, overlap);
    StepKeepsBudget(p, sentence, chunkSize, overlap);
    StepKeepsLinks(p, sentence, chunkSize, overlap);
  }

  lemma {:induction false} RunKeepsInvariant(sentences: seq<string>, chunkSize: int, overlap: int)
    ensures LoopInvariant(Run(sentences, chunkSize, overlap), sentences, chunkSize, overlap)
    decreases |sentences|
  {
    if sentences == [] {
      assert AddedOf([]) + [] == sentences;
    } else {
      var init := sentences[..|sentences| - 1];
      var last := sentences[|sentences| - 1];
      RunKeepsInvariant(init, chunkSize, overlap);
      assert Run(sentences, chunkSize, overlap) == Step(Run(init, chunkSize, overlap), last, chunkSize, overlap);
      assert init + [last] == sentences;
      StepKeepsInvariant(Run(init, chunkSize, overlap), init, last, chunkSize, overlap);
    }
  }

  /** What the chunk groups of a sentence list satisfy:
      - coverage: the sentences the groups add, concatenated, are the input
        exactly, in order; so no sentence is dropped or repeated, and no group
        consists of carried overlap alone;
      - size: a group's sentence-length total is within `chunkSize`, unless
        the group adds exactly one sentence (carried overlap plus one sentence);
      - overlap: the first group carries nothing, and every later group carries
        the overlap suffix of the previous group's sentences;
      - there are no groups exactly when there are no sentences. */
  ghost predicate ChunkGroupsSpec(groups: seq<Group>, sentences: seq<string>, chunkSize: int, overlap: int) {
    && GroupsCover(groups, sentences)
    && GroupsBounded(groups, chunkSize)
    && GroupsLinked(groups, overlap)
  }

  ghost predicate GroupsCover(groups: seq<Group>, sentences: seq<string>) {
    && AddedOf(groups) == sentences
    && (groups == [] <==> sentences == [])
  }

  ghost predicate GroupsBounded(groups: seq<Group>, chunkSize: int) {
    forall i :: 0 <= i < |groups| ==>
      groups[i].added != [] && (TotalLength(groups[i].Sentences()) <= chunkSize || |groups[i].added| == 1)
  }

  ghost predicate GroupsLinked(groups: seq<Group>, overlap: int) {
    && (|groups| > 0 ==> groups[0].carried == [])
    && (forall i :: 0 < i < |groups| ==> groups[i].carried == Carry(groups[i - 1].Sentences(), overlap))
  }

  /** The groups of a final loop state: the closed ones and a non-empty buffer. */
  function FinalOf(p: Progress): seq<Group> {
    p.closed + (if p.open.Sentences() == [] then [] else [p.open])
  }

  lemma FinalCover(p: Progress, sentences: seq<string>, chunkSize: int)
    requires AddedOf(p.closed) + p.open.added == sentences
    requires BudgetKept(p, chunkSize)
    ensures GroupsCover(FinalOf(p), sentences)
  {
    var gs := FinalOf(p);
    if p.open.Sentences() == [] {
      assert gs == p.closed;
      assert AddedOf(p.closed) == sentences;
      if p.closed != [] {
        assert p.closed[|p.closed| - 1].added != [];
      }
    } else {
      assert gs[..|gs| - 1] == p.closed;
      assert p.open.added != [];
    }
  }

  lemma FinalBounded(p: Progress, chunkSize: int)
    requires BudgetKept(p, chunkSize)
    ensures GroupsBounded(FinalOf(p), chunkSize)
  {
    var gs := FinalOf(p);
    if p.open.Sentences() != [] {
      assert gs == p.closed + [p.open];
      assert p.open.added != [];
    }
  }

  lemma FinalLinked(p: Progress, overlap: int)
    requires OverlapsLinked(p, overlap)
    ensures GroupsLinked(FinalOf(p), overlap)
  {
    var gs := FinalOf(p);
    if p.open.Sentences() != [] {
      assert gs == p.closed + [p.open];
    }
  }

  lemma FinalGroups(p: Progress, sentences: seq<string>, chunkSize: int, overlap: int)
    requires LoopInvariant(p, sentences, chunkSize, overlap)
    ensures ChunkGroupsSpec(FinalOf(p), sentences, chunkSize, overlap)
  {
    FinalCover(p, sentences, chunkSize);
    FinalBounded(p, chunkSize);
    FinalLinked(p, overlap);
  }

  /** `create_chunks` groups its sentences as `ChunkGroupsSpec` says. */
  lemma GroupsSound(sentences: seq<string>, chunkSize: int, overlap: int)
    ensures ChunkGroupsSpec(Groups(sentences, chunkSize, overlap), sentences, chunkSize, overlap)
  {
    RunKeepsInvariant(sentences, chunkSize, overlap);
    FinalGroups(Run(sentences, chunkSize, overlap), sentences, chunkSize, overlap);
  }

  /** The carried overlap is the longest suffix of the flushed sentences whose
      length total is within `budget`: it is a suffix, it fits (when it is not
      empty), and every longer suffix exceeds the budget. */
  lemma CarryIsLongestFittingSuffix(sentences: seq<string>, budget: int)
    ensures |Carry(sentences, budget)| <= |sentences|
    ensures Carry(sentences, budget) == sentences[|sentences| - |Carry(sentences, budget)|..]
    ensures Carry(sentences, budget) != [] ==> TotalLength(Carry(sentences, budget)) <= budget
    ensures forall m :: 0 <= m < |sentences| - |Carry(sentences, budget)| ==> TotalLength(sentences[m..]) > budget
  {
    CarryIsSuffix(sentences, budget);
    CarryFits(sentences, budget);
    CarryIsLongest(sentences, budget);
  }

  lemma {:induction false} CarryIsSuffix(sentences: seq<string>, budget: int)
    ensures |Carry(sentences, budget)| <= |sentences|
    ensures Carry(sentences, budget) == sentences[|sentences| - |Carry(sentences, budget)|..]
    decreases |sentences|
  {
    if sentences != [] {
      var n := |sentences|;
      var last := sentences[n - 1];
      var init := sentences[..n - 1];
      if |last| <= budget {
        CarryIsSuffix(init, budget - |last|);
        var c' := Carry(init, budget - |last|);
        assert Carry(sentences, budget) == c' + [last];
        assert c' == init[|init| - |c'|..];
        assert sentences[n - |c'| - 1..] == init[|init| - |c'|..] + [last];
      }
    }
  }

  lemma {:induction false} CarryFits(sentences: seq<string>, budget: int)
    ensures Carry(sentences, budget) != [] ==> TotalLength(Carry(sentences, budget)) <= budget
    decreases |sentences|
  {
    if sentences != [] {
      var n := |sentences|;
      var last := sentences[n - 1];
      var init := sentences[..n - 1];
      if |last| <= budget {
        CarryFits(init, budget - |last|);
        var c := Carry(sentences, budget);
        var c' := Carry(init, budget - |last|);
        assert c == c' + [last];
        assert c[..|c| - 1] == c';
        assert TotalLength(c) == TotalLength(c') + |last|;
      }
    }
  }

  /** The length total of a suffix, split off at the last sentence. */
  lemma SuffixTotal(sentences: seq<string>, m: nat)
    requires m < |sentences|
    ensures TotalLength(sentences[m..])
              == TotalLength(sentences[..|sentences| - 1][m..]) + |sentences[|sentences| - 1]|
  {
    var t := sentences[m..];
    assert t[..|t| - 1] == sentences[..|sentences| - 1][m..];
  }

  lemma {:induction false} CarryIsLongest(sentences: seq<string>, budget: int)
    ensures forall m :: 0 <= m < |sentences| - |Carry(sentences, budget)| ==> TotalLength(sentences[m..]) > budget
    decreases |sentences|
  {
    if sentences != [] {
      var n := |sentences|;
      var last := sentences[n - 1];
      var init := sentences[..n - 1];
      var c := Carry(sentences, budget);
      if |last| <= budget {
        CarryIsLongest(init, budget - |last|);
        assert |c| == |Carry(init, budget - |last|)| + 1;
        forall m | 0 <= m < n - |c| ensures TotalLength(sentences[m..]) > budget {
          SuffixTotal(sentences, m);
        }
      } else {
        forall m | 0 <= m < n ensures TotalLength(sentences[m..]) > budget {
          SuffixTotal(sentences, m);
        }
      }
    }
  }

  /** A chunk's text is its sentences joined by single spaces, so it is longer
      than their length total by one character per gap. */
  lemma ContentLength(g: Group)
    requires g.Sentences() != []
    ensures |Join(" ", g.Sentences())| == TotalLength(g.Sentences()) + |g.Sentences()| - 1
  {
    JoinLength(" ", g.Sentences());
  }

  function MetadataOrEmpty(metadata: Option<Metadata>): Metadata {
    if metadata.Some? then metadata.value else map[]
  }

  /** The chunk dictionaries for a list of groups. */
  function Render(groups: seq<Group>, metadata: Metadata): (chunks: seq<Chunk>) {
    seq(|groups|, i requires 0 <= i < |groups| => Chunk(Join(" ", groups[i].Sentences()), metadata))
  }

  /** What `create_chunks(text, metadata)` returns. */
  function ChunksOf(text: string, metadata: Option<Metadata>, chunkSize: int, overlap: int): seq<Chunk> {
    Render(Groups(SplitIntoSentences(text), chunkSize, overlap), MetadataOrEmpty(metadata))
  }

  /** The inner loop of `create_chunks`: scan the flushed buffer backwards,
      prepending sentences while they fit in `overlap`, and stop at the first
      that does not. */
  method OverlapTail(currentChunk: seq<string>, overlap: int) returns (overlapSentences: seq<string>, overlapLength: int)
    ensures overlapSentences == Carry(currentChunk, overlap)
    ensures overlapLength == TotalLength(overlapSentences)
  {
    overlapSentences := [];
    overlapLength := 0;
    var j := |currentChunk|;
    assert currentChunk[..j] == currentChunk;
    while j > 0
      invariant 0 <= j <= |currentChunk|
      invariant overlapSentences == currentChunk[j..]
      invariant overlapLength == TotalLength(overlapSentences)
      invariant Carry(currentChunk, overlap) == Carry(currentChunk[..j], overlap - overlapLength) + overlapSentences
    {
      var sent := currentChunk[j - 1];
      TailStep(currentChunk, j, overlap - overlapLength, overlapSentences);
      if overlapLength + |sent| <= overlap {
        ghost var remaining := overlap - overlapLength - |sent|;
        assert Carry(currentChunk, overlap) == Carry(currentChunk[..j - 1], remaining) + ([sent] + overlapSentences);
        overlapSentences := [sent] + overlapSentences;
        overlapLength := overlapLength + |sent|;
        j := j - 1;
      } else {
        break;
      }
    }
  }

  /** One step of the backward scan over the first `j` sentences. */
  lemma CarryStep(sentences: seq<string>, j: nat, budget: int)
    requires 0 < j <= |sentences|
    ensures var last := sentences[j - 1];
            Carry(sentences[..j], budget)
              == if |last| <= budget then Carry(sentences[..j - 1], budget - |last|) + [last] else []
  {
    assert sentences[..j][..j - 1] == sentences[..j - 1];
  }

  /** One iteration of the scan of `OverlapTail`, in both of its outcomes. */
  lemma TailStep(sentences: seq<string>, j: nat, budget: int, carried: seq<string>)
    requires 0 < j <= |sentences| && carried == sentences[j..]
    ensures var last := sentences[j - 1];
            && sentences[j - 1..] == [last] + carried
            && TotalLength([last] + carried) == |last| + TotalLength(carried)
            && (|last| <= budget ==>
                  Carry(sentences[..j], budget) + carried == Carry(sentences[..j - 1], budget - |last|) + ([last] + carried))
            && (|last| > budget ==> Carry(sentences[..j], budget) + carried == carried)
  {
    CarryStep(sentences, j, budget);
    PrependTotal(sentences[j - 1], carried);
  }

  lemma PrependTotal(s: string, rest: seq<string>)
    ensures TotalLength([s] + rest) == |s| + TotalLength(rest)
  {
    TotalLengthAppend([s], rest);
    assert TotalLength([s]) == TotalLength([]) + |s|;
  }

  lemma RenderAppend(groups: seq<Group>, g: Group, metadata: Metadata)
    ensures Render(groups + [g], metadata) == Render(groups, metadata) + [Chunk(Join(" ", g.Sentences()), metadata)]
  {
  }

  lemma RunStep(sentences: seq<string>, i: nat, chunkSize: int, overlap: int)
    requires i < |sentences|
    ensures Run(sentences[..i + 1], chunkSize, overlap) == Step(Run(sentences[..i], chunkSize, overlap), sentences[i], chunkSize, overlap)
  {
    assert sentences[..i + 1][..i] == sentences[..i];
  }

  /** Every chunk of `create_chunks` carries the given metadata, or an empty
      dictionary when none is given, and no id or embedding yet; there are no
      chunks exactly when the text is blank; each chunk's text is its group's
      sentences joined by spaces. */
  lemma ChunksOfProperties(text: string, metadata: Option<Metadata>, chunkSize: int, overlap: int)
    ensures forall k :: 0 <= k < |ChunksOf(text, metadata, chunkSize, overlap)| ==>
              var c := ChunksOf(text, metadata, chunkSize, overlap)[k];
              c.metadata == MetadataOrEmpty(metadata) && c.chunkId.None? && c.embedding.None?
    ensures ChunksOf(text, metadata, chunkSize, overlap) == [] <==> IsBlank(text)
    ensures |ChunksOf(text, metadata, chunkSize, overlap)| == |Groups(SplitIntoSentences(text), chunkSize, overlap)|
  {
    var ss := SplitIntoSentences(text);
    var gs := Groups(ss, chunkSize, overlap);
    assert ss == [] <==> IsBlank(text) by { SentencesCharacterized(text); }
    assert gs == [] <==> ss == [] by {
      GroupsSound(ss, chunkSize, overlap);
      assert GroupsCover(gs, ss);
    }
    assert |ChunksOf(text, metadata, chunkSize, overlap)| == |gs|;
  }

  /** `create_chunks(text, metadata)`: the loop over sentences with its flush
      check, overlap re-seeding and final flush. */
  method CreateChunks(text: string, metadata: Option<Metadata>, chunkSize: int, overlap: int)
    returns (chunks: seq<Chunk>)
    ensures chunks == ChunksOf(text, metadata, chunkSize, overlap)
  {
    var sentences := SplitIntoSentences(text);
    chunks := ChunkSentences(sentences, MetadataOrEmpty(metadata), chunkSize, overlap);
  }

  /** The loop of `create_chunks` over the sentences of the text. */
  method ChunkSentences(sentences: seq<string>, meta: Metadata, chunkSize: int, overlap: int)
    returns (chunks: seq<Chunk>)
    ensures chunks == Render(Groups(sentences, chunkSize, overlap), meta)
  {
    chunks := [];
    var currentChunk: seq<string> := [];
    var currentLength := 0;
    ghost var p := Progress([], Group([], []));
    for i := 0 to |sentences|
      invariant p == Run(sentences[..i], chunkSize, overlap)
      invariant chunks == Render(p.closed, meta)
      invariant currentChunk == p.open.Sentences()
      invariant currentLength == TotalLength(currentChunk)
    {
      RunStep(sentences, i, chunkSize, overlap);
      var sentence := sentences[i];
      var sentenceLength := |sentence|;
      StepShape(p, sentence, chunkSize, overlap);
      if currentLength + sentenceLength > chunkSize && currentChunk != [] {
        var chunkText := Join(" ", currentChunk);
        RenderAppend(p.closed, p.open, meta);
        chunks := chunks + [Chunk(chunkText, meta)];
        var overlapSentences, overlapLength := OverlapTail(currentChunk, overlap);
        currentChunk := overlapSentences;
        currentLength := overlapLength;
      }
      AppendTotal(currentChunk, sentence);
      currentChunk := currentChunk + [sentence];
      currentLength := currentLength + sentenceLength;
      p := Step(p, sentence, chunkSize, overlap);
    }
    assert sentences[..|sentences|] == sentences;
    FinalRender(p, meta);
    if currentChunk != [] {
      chunks := chunks + [Chunk(Join(" ", currentChunk), meta)];
    }
  }

  /** A step either closes the buffer and re-seeds it with the overlap, or
      extends it; either way the new sentence ends the buffer. */
  lemma StepShape(p: Progress, sentence: string, chunkSize: int, overlap: int)
    ensures var q := Step(p, sentence, chunkSize, overlap);
            && q.closed == (if Flushes(p, sentence, chunkSize) then p.closed + [p.open] else p.closed)
            && q.open.Sentences()
                 == (if Flushes(p, sentence, chunkSize) then Carry(p.open.Sentences(), overlap) else p.open.Sentences())
                    + [sentence]
  {
    if !Flushes(p, sentence, chunkSize) {
      assert p.open.carried + (p.open.added + [sentence]) == p.open.Sentences() + [sentence];
    }
  }

  lemma AppendTotal(parts: seq<string>, s: string)
    ensures TotalLength(parts + [s]) == TotalLength(parts) + |s|
  {
    assert (parts + [s])[..|parts|] == parts;
  }

  /** The chunks of a final loop state: those closed, then the buffer's if it
      is not empty. */
  lemma FinalRender(p: Progress, metadata: Metadata)
    ensures Render(FinalOf(p), metadata)
              == Render(p.closed, metadata)
                 + (if p.open.Sentences() == [] then [] else [Chunk(Join(" ", p.open.Sentences()), metadata)])
  {
    if p.open.Sentences() == [] {
      assert FinalOf(p) == p.closed;
    } else {
      RenderAppend(p.closed, p.open, metadata);
    }
  }

  // ---------------------------------------------------------------------------
  // chunk_document

  /** `f"chunk_{idx}"`. */
  function ChunkIdFor(index: nat): string {
    "chunk_" + NatToString(index)
  }

  /** `{'page_number': page['page_number']}`. */
  function PageMetadata(page: Page): Metadata {
    map["page_number" := IntValue(page.pageNumber)]
  }

  /** The chunks of the pages, page by page, in page order. */
  function PagesChunks(pages: seq<Page>, chunkSize: int, overlap: int): seq<Chunk>
    decreases |pages|
  {
    if pages == [] then []
    else
      var page := pages[|pages| - 1];
      PagesChunks(pages[..|pages| - 1], chunkSize, overlap)
        + ChunksOf(page.content, Some(PageMetadata(page)), chunkSize, overlap)
  }

  /** The chunks of a parsed document before numbering: page by page for a
      document with pages, else once over its content with empty metadata. */
  function UnnumberedChunks(doc: ParsedDocument, chunkSize: int, overlap: int): seq<Chunk> {
    match doc
    case PdfDocument(_, pages) => PagesChunks(pages, chunkSize, overlap)
    case DocxDocument(_, content) => ChunksOf(content, Some(map[]), chunkSize, overlap)
    case TextDocument(content) => ChunksOf(content, Some(map[]), chunkSize, overlap)
  }

  /** The chunks with `chunk_id` set from their position in the whole list. */
  function Numbered(chunks: seq<Chunk>): seq<Chunk> {
    seq(|chunks|, i requires 0 <= i < |chunks| => chunks[i].(chunkId := Some(ChunkIdFor(i))))
  }

  /** `chunk_document`: chunk every page (or the content once), extend the
      list, then number the chunks `chunk_0`, `chunk_1`, ... across the whole
      document, not per page. */
  method ChunkDocument(doc: ParsedDocument, chunkSize: int, overlap: int) returns (allChunks: seq<Chunk>)
    ensures allChunks == Numbered(UnnumberedChunks(doc, chunkSize, overlap))
  {
    allChunks := [];
    if doc.PdfDocument? {
      var pages := doc.pages;
      for j := 0 to |pages|
        invariant allChunks == PagesChunks(pages[..j], chunkSize, overlap)
      {
        PagesChunksStep(pages, j, chunkSize, overlap);
        var pageChunks := CreateChunks(pages[j].content, Some(PageMetadata(pages[j])), chunkSize, overlap);
        allChunks := allChunks + pageChunks;
      }
      assert pages[..|pages|] == pages;
    } else {
      var chunks := CreateChunks(doc.content, Some(map[]), chunkSize, overlap);
      allChunks := allChunks + chunks;
    }
    allChunks := NumberChunks(allChunks);
  }

  /** The numbering loop of `chunk_document`, setting `chunk_id` in place. */
  method NumberChunks(chunks: seq<Chunk>) returns (numbered: seq<Chunk>)
    ensures numbered == Numbered(chunks)
  {
    numbered := chunks;
    for idx := 0 to |numbered|
      invariant |numbered| == |chunks|
      invariant forall k :: 0 <= k < idx ==> numbered[k] == chunks[k].(chunkId := Some(ChunkIdFor(k)))
      invariant forall k :: idx <= k < |numbered| ==> numbered[k] == chunks[k]
    {
      numbered := numbered[idx := numbered[idx].(chunkId := Some(ChunkIdFor(idx)))];
    }
  }

  lemma PagesChunksStep(pages: seq<Page>, j: nat, chunkSize: int, overlap: int)
    requires j < |pages|
    ensures PagesChunks(pages[..j + 1], chunkSize, overlap)
              == PagesChunks(pages[..j], chunkSize, overlap)
                 + ChunksOf(pages[j].content, Some(PageMetadata(pages[j])), chunkSize, overlap)
  {
    assert pages[..j + 1][..j] == pages[..j];
  }

  /** Numbering sets exactly the ids, to the positions in the whole list. */
  lemma NumberedIds(chunks: seq<Chunk>)
    ensures |Numbered(chunks)| == |chunks|
    ensures forall k :: 0 <= k < |chunks| ==>
              Numbered(chunks)[k].chunkId == Some(ChunkIdFor(k))
              && Numbered(chunks)[k].content == chunks[k].content
              && Numbered(chunks)[k].metadata == chunks[k].metadata
  {
  }

  /** The numbering gives every chunk of a document a different id. */
  lemma NumberedIdsDistinct(chunks: seq<Chunk>, i: nat, j: nat)
    requires i < |chunks| && j < |chunks| && i != j
    ensures Numbered(chunks)[i].chunkId != Numbered(chunks)[j].chunkId
  {
    if ChunkIdFor(i) == ChunkIdFor(j) {
      assert ChunkIdFor(i)[6..] == NatToString(i);
      assert ChunkIdFor(j)[6..] == NatToString(j);
      NatToStringInjective(i, j);
    }
  }

  /** Every chunk of a document with pages carries exactly the page number of
      one of its pages; every chunk of other documents has empty metadata. */
  lemma {:induction false} PageNumbersPreserved(pages: seq<Page>, chunkSize: int, overlap: int)
    ensures forall k :: 0 <= k < |PagesChunks(pages, chunkSize, overlap)| ==>
              exists j :: 0 <= j < |pages| && PagesChunks(pages, chunkSize, overlap)[k].metadata == PageMetadata(pages[j])
    decreases |pages|
  {
    if pages == [] {
      assert PagesChunks(pages, chunkSize, overlap) == [];
    } else {
      var init := pages[..|pages| - 1];
      var page := pages[|pages| - 1];
      PageNumbersPreserved(init, chunkSize, overlap);
      var front := PagesChunks(init, chunkSize, overlap);
      var back := ChunksOf(page.content, Some(PageMetadata(page)), chunkSize, overlap);
      var all := PagesChunks(pages, chunkSize, overlap);
      ChunksOfProperties(page.content, Some(PageMetadata(page)), chunkSize, overlap);
      assert all == front + back;
      forall k | 0 <= k < |all|
        ensures exists j :: 0 <= j < |pages| && all[k].metadata == PageMetadata(pages[j])
      {
        if k < |front| {
          var j :| 0 <= j < |init| && front[k].metadata == PageMetadata(init[j]);
          assert pages[j] == init[j];
        } else {
          assert all[k] == back[k - |front|];
          assert all[k].metadata == PageMetadata(pages[|pages| - 1]);
        }
      }
    }
  }

  /** The chunk lists of the pages, one list per page, in page order. */
  function PageChunkLists(pages: seq<Page>, chunkSize: int, overlap: int): seq<seq<Chunk>> {
    seq(|pages|, j requires 0 <= j < |pages| => ChunksOf(pages[j].content, Some(PageMetadata(pages[j])), chunkSize, overlap))
  }

  /** The chunks of a paged document are the chunks of page 1, then those of
      page 2, and so on; every chunk of page j carries page j's number. */
  lemma {:induction false} PagesChunksInPageOrder(pages: seq<Page>, chunkSize: int, overlap: int)
    ensures PagesChunks(pages, chunkSize, overlap) == Concat(PageChunkLists(pages, chunkSize, overlap))
    ensures forall j :: 0 <= j < |pages| ==>
              forall c: Chunk :: c in PageChunkLists(pages, chunkSize, overlap)[j] ==> c.metadata == PageMetadata(pages[j])
    decreases |pages|
  {
    var lists := PageChunkLists(pages, chunkSize, overlap);
    forall j | 0 <= j < |pages|
      ensures forall c: Chunk :: c in lists[j] ==> c.metadata == PageMetadata(pages[j])
    {
      ChunksOfProperties(pages[j].content, Some(PageMetadata(pages[j])), chunkSize, overlap);
    }
    if pages != [] {
      var init := pages[..|pages| - 1];
      PagesChunksInPageOrder(init, chunkSize, overlap);
      assert lists[..|lists| - 1] == PageChunkLists(init, chunkSize, overlap);
    }
  }

  /** The metadata `chunk_document` gives: for a document with pages, the
      page number of one of its pages; for the others, an empty dictionary. */
  lemma DocumentChunkMetadata(doc: ParsedDocument, chunkSize: int, overlap: int)
    ensures doc.PdfDocument? ==> forall k :: 0 <= k < |UnnumberedChunks(doc, chunkSize, overlap)| ==>
              exists j :: 0 <= j < |doc.pages| && UnnumberedChunks(doc, chunkSize, overlap)[k].metadata == PageMetadata(doc.pages[j])
    ensures !doc.PdfDocument? ==> forall k :: 0 <= k < |UnnumberedChunks(doc, chunkSize, overlap)| ==>
              UnnumberedChunks(doc, chunkSize, overlap)[k].metadata == map[]
  {
    if doc.PdfDocument? {
      PageNumbersPreserved(doc.pages, chunkSize, overlap);
      assert UnnumberedChunks(doc, chunkSize, overlap) == PagesChunks(doc.pages, chunkSize, overlap);
    } else {
      ChunksOfProperties(doc.content, Some(map[]), chunkSize, overlap);
    }
  }

  /** The budget counts sentence lengths only: two sentences whose lengths
      add up to exactly `chunkSize` share one chunk, and the space that joins
      them makes that chunk one character longer than `chunkSize`. */
  lemma JoiningSpacesNotCounted(a: string, b: string, chunkSize: int, overlap: int, metadata: Metadata)
    requires a != [] && |a| + |b| == chunkSize
    ensures Render(Groups([a, b], chunkSize, overlap), metadata) == [Chunk(a + " " + b, metadata)]
    ensures |a + " " + b| == chunkSize + 1
  {
    var ss := [a, b];
    var empty := Progress([], Group([], []));
    assert ss[..1] == [a] && ss[..1][..0] == [];
    assert Run(ss[..1][..0], chunkSize, overlap) == empty;
    var p1 := Step(empty, a, chunkSize, overlap);
    assert p1 == Progress([], Group([], [a]));
    assert Run(ss[..1], chunkSize, overlap) == p1;
    assert TotalLength([a]) == TotalLength([]) + |a|;
    var p2 := Step(p1, b, chunkSize, overlap);
    assert p2 == Progress([], Group([], ss));
    assert Run(ss, chunkSize, overlap) == p2;
    assert Groups(ss, chunkSize, overlap) == [Group([], ss)];
    assert ss[1..] == [b];
    assert Join(" ", ss) == a + " " + b;
    assert Group([], ss).Sentences() == ss;
    assert Render([Group([], ss)], metadata)[0] == Chunk(Join(" ", ss), metadata);
  }
}
