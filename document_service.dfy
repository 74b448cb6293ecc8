/** Upload validation and parse routing (app/services/document_service.py). The
    PDF and DOCX readers and the UTF-8 decoder are foreign code: they are the
    `Extractors` given to the parsers, and only what the service does with
    their output is modelled. */
module DocumentService {
  import opened Common
  import opened Text

  const AllowedExtensions: set<string> := {".pdf", ".docx", ".txt"}

  /** `max_file_size_mb` of the settings. */
  const DefaultMaxFileSizeMb: int := 10

  /** Bytes in a mebibyte. */
  const MiB: int := 1024 * 1024

  /** `s.split('.')[-1]`: the text after the last dot, or all of `s` when it
      has no dot. */
  function AfterLastDot(s: string): (r: string)
    ensures |r| <= |s| && r == s[|s| - |r|..]
    ensures '.' !in r
    ensures |r| < |s| ==> s[|s| - |r| - 1] == '.'
  {
    if s == [] || s[|s| - 1] == '.' then [] else AfterLastDot(s[..|s| - 1]) + [s[|s| - 1]]
  }

  /** The extension `validate_file` checks: a dot and the lower-cased text
      after the last dot, or the empty string for a name without a dot. */
  function ValidationExtension(filename: string): string {
    if '.' in filename then "." + AfterLastDot(Lower(filename)) else ""
  }

  /** The key `parse_document` routes on: the same text without the dot. */
  function ParserKey(filename: string): string {
    if '.' in filename then AfterLastDot(Lower(filename)) else ""
  }

  /** `validate_file`: the extension must be allowed and the size at most
      `maxFileSizeMb` MiB; the extension is checked first. `allowedText` is
      Python's rendering of the allowed-extension set in the message. */
  function ValidateFile(filename: string, fileSize: int, maxFileSizeMb: int, allowedText: string): (r: Result<()>)
    ensures r.Ok? <==> ValidationExtension(filename) in AllowedExtensions && fileSize <= maxFileSizeMb * MiB
    ensures r.Err? ==> r.error.kind == FileValidation
    ensures ValidationExtension(filename) !in AllowedExtensions ==>
              r.Err? && r.error.message == "Invalid file type: " + ValidationExtension(filename) + ". Allowed: " + allowedText
    ensures ValidationExtension(filename) in AllowedExtensions && fileSize > maxFileSizeMb * MiB ==>
              r.Err? && r.error.message ==
                "File too large: " + IntToString(fileSize) + " bytes. Max: " + IntToString(maxFileSizeMb * MiB) + " bytes"
  {
    var ext := ValidationExtension(filename);
    if ext !in AllowedExtensions then
      Err(Error(FileValidation, "Invalid file type: " + ext + ". Allowed: " + allowedText))
    else if fileSize > maxFileSizeMb * MiB then
      Err(Error(FileValidation,
        "File too large: " + IntToString(fileSize) + " bytes. Max: " + IntToString(maxFileSizeMb * MiB) + " bytes"))
    else
      Ok(())
  }

  /** The limit is inclusive: a file of exactly the maximum size passes, one
      byte more is rejected (with an allowed extension). */
  lemma SizeLimitBoundary(filename: string, maxFileSizeMb: int, allowedText: string)
    requires ValidationExtension(filename) in AllowedExtensions
    ensures ValidateFile(filename, maxFileSizeMb * MiB, maxFileSizeMb, allowedText).Ok?
    ensures ValidateFile(filename, maxFileSizeMb * MiB + 1, maxFileSizeMb, allowedText).Err?
  {
  }

  /** A file that passes validation always has a parser: `validate_file` and
      `parse_document` take the extension from the same last dot. */
  lemma ValidatedFileHasParser(filename: string, fileSize: int, maxFileSizeMb: int, allowedText: string)
    requires ValidateFile(filename, fileSize, maxFileSizeMb, allowedText).Ok?
    ensures ParserKey(filename) in {"pdf", "docx", "txt"}
  {
    var k := ParserKey(filename);
    assert '.' in filename;
    var ext := "." + k;
    assert ext == ".pdf" || ext == ".docx" || ext == ".txt";
    assert k == ext[1..];
  }

  /** A page of a PDF that has text: its 1-based position in the file and its text. */
  datatype Page = Page(pageNumber: int, content: string)

  /** The dictionaries the three parsers return. */
  datatype ParsedDocument =
    | PdfDocument(totalPages: nat, pages: seq<Page>)
    | DocxDocument(totalParagraphs: nat, content: string)
    | TextDocument(content: string)

  /** The foreign readers: the text of every page of a PDF, the text of every
      paragraph of a DOCX, and UTF-8 decoding. Each may raise. */
  datatype Extractors = Extractors(
    pdfPages: seq<bv8> -> Call<seq<string>>,
    docxParagraphs: seq<bv8> -> Call<seq<string>>,
    utf8: seq<bv8> -> Call<string>)

  /** The pages `parse_pdf` keeps from the page texts: the non-blank ones,
      numbered by their position from 1. */
  function KeptPages(texts: seq<string>): seq<Page> {
    if texts == [] then []
    else KeptPages(texts[..|texts| - 1])
         + (if IsBlank(texts[|texts| - 1]) then [] else [Page(|texts|, texts[|texts| - 1])])
  }

  /** The kept pages are exactly the non-blank page texts, in order, each
      under its original 1-based position (gaps where blank pages were). */
  lemma KeptPagesExact(texts: seq<string>)
    ensures forall p :: p in KeptPages(texts) ==>
              1 <= p.pageNumber <= |texts| && p.content == texts[p.pageNumber - 1] && !IsBlank(p.content)
    ensures forall i, j :: 0 <= i < j < |KeptPages(texts)| ==>
              KeptPages(texts)[i].pageNumber < KeptPages(texts)[j].pageNumber
    ensures forall i :: 0 <= i < |texts| && !IsBlank(texts[i]) ==> Page(i + 1, texts[i]) in KeptPages(texts)
  {
    KeptPagesSound(texts);
    KeptPagesOrdered(texts);
    KeptPagesComplete(texts);
  }

  /** Every kept page is a non-blank text under its own position. */
  lemma {:induction false} KeptPagesSound(texts: seq<string>)
    ensures forall p :: p in KeptPages(texts) ==>
              1 <= p.pageNumber <= |texts| && p.content == texts[p.pageNumber - 1] && !IsBlank(p.content)
  {
    if texts != [] {
      var init := texts[..|texts| - 1];
      KeptPagesSound(init);
      forall p | p in KeptPages(init) ensures texts[p.pageNumber - 1] == init[p.pageNumber - 1] { }
    }
  }

  /** The kept pages are in increasing page order. */
  lemma {:induction false} KeptPagesOrdered(texts: seq<string>)
    ensures forall i, j :: 0 <= i < j < |KeptPages(texts)| ==>
              KeptPages(texts)[i].pageNumber < KeptPages(texts)[j].pageNumber
  {
    if texts != [] {
      var init := texts[..|texts| - 1];
      KeptPagesOrdered(init);
      KeptPagesSound(init);
      var prev := KeptPages(init);
      forall i | 0 <= i < |prev| ensures prev[i].pageNumber < |texts| {
        assert prev[i] in prev;
      }
    }
  }

  /** Every non-blank text is kept under its position. */
  lemma {:induction false} KeptPagesComplete(texts: seq<string>)
    ensures forall i :: 0 <= i < |texts| && !IsBlank(texts[i]) ==> Page(i + 1, texts[i]) in KeptPages(texts)
  {
    if texts != [] {
      var init := texts[..|texts| - 1];
      KeptPagesComplete(init);
      forall i | 0 <= i < |init| ensures texts[i] == init[i] { }
    }
  }

  /** What `parse_pdf` makes of the reader's reply: a reader failure becomes
      a parsing error; otherwise the non-blank pages and the count of all
      pages. */
  function PdfOutcome(reply: Call<seq<string>>): Result<ParsedDocument> {
    match reply
    case Raised(msg) => Err(Error(DocumentParsing, "PDF parsing failed: " + msg))
    case Returned(texts) => Ok(PdfDocument(|texts|, KeptPages(texts)))
  }

  /** `parse_pdf`, with its page loop. */
  method ParsePdf(file: seq<bv8>, extractors: Extractors) returns (r: Result<ParsedDocument>)
    ensures r == PdfOutcome(extractors.pdfPages(file))
  {
    var reader := extractors.pdfPages(file);
    if reader.Raised? {
      return Err(Error(DocumentParsing, "PDF parsing failed: " + reader.message));
    }
    var texts := reader.value;
    var pages: seq<Page> := [];
    var pageNum := 1;
    while pageNum <= |texts|
      invariant 1 <= pageNum <= |texts| + 1
      invariant pages == KeptPages(texts[..pageNum - 1])
    {
      var text := texts[pageNum - 1];
      assert texts[..pageNum][..pageNum - 1] == texts[..pageNum - 1];
      if !IsBlank(text) {
        pages := pages + [Page(pageNum, text)];
      }
      pageNum := pageNum + 1;
    }
    assert texts[..|texts|] == texts;
    r := Ok(PdfDocument(|texts|, pages));
  }

  /** What `parse_docx` makes of the reader's reply: the non-blank paragraphs
      joined by blank lines, and their number. */
  function DocxOutcome(reply: Call<seq<string>>): Result<ParsedDocument> {
    match reply
    case Raised(msg) => Err(Error(DocumentParsing, "DOCX parsing failed: " + msg))
    case Returned(all) =>
      var kept := NonBlank(all);
      Ok(DocxDocument(|kept|, Join("\n\n", kept)))
  }

  /** `parse_docx`, with its paragraph loop. */
  method ParseDocx(file: seq<bv8>, extractors: Extractors) returns (r: Result<ParsedDocument>)
    ensures r == DocxOutcome(extractors.docxParagraphs(file))
  {
    var doc := extractors.docxParagraphs(file);
    if doc.Raised? {
      return Err(Error(DocumentParsing, "DOCX parsing failed: " + doc.message));
    }
    var all := doc.value;
    var paragraphs: seq<string> := [];
    for i := 0 to |all|
      invariant paragraphs == NonBlank(all[..i])
    {
      assert all[..i + 1][..i] == all[..i];
      if !IsBlank(all[i]) {
        paragraphs := paragraphs + [all[i]];
      }
    }
    assert all[..|all|] == all;
    r := Ok(DocxDocument(|paragraphs|, Join("\n\n", paragraphs)));
  }

  /** `parse_txt`: the decoded text, unchanged, under `content`. */
  function ParseTxt(file: seq<bv8>, extractors: Extractors): (r: Result<ParsedDocument>)
    ensures extractors.utf8(file).Returned? ==> r == Ok(TextDocument(extractors.utf8(file).value))
    ensures extractors.utf8(file).Raised? ==>
              r == Err(Error(DocumentParsing, "TXT parsing failed: " + extractors.utf8(file).message))
  {
    match extractors.utf8(file)
    case Returned(text) => Ok(TextDocument(text))
    case Raised(msg) => Err(Error(DocumentParsing, "TXT parsing failed: " + msg))
  }

  /** What `parse_document` gives for a file: the outcome of the parser its
      key names; only validation and parsing errors can come out. */
  function ParseOutcome(filename: string, file: seq<bv8>, extractors: Extractors): (r: Result<ParsedDocument>)
    ensures r.Err? ==> r.error.kind in {FileValidation, DocumentParsing}
    ensures r.Err? && r.error.kind == FileValidation ==> ParserKey(filename) !in {"pdf", "docx", "txt"}
  {
    var ext := ParserKey(filename);
    if ext == "pdf" then PdfOutcome(extractors.pdfPages(file))
    else if ext == "docx" then DocxOutcome(extractors.docxParagraphs(file))
    else if ext == "txt" then ParseTxt(file, extractors)
    else Err(Error(FileValidation, "No parser for " + ext))
  }

  /** `parse_document`: route on the lower-cased text after the last dot. */
  method ParseDocument(filename: string, file: seq<bv8>, extractors: Extractors) returns (r: Result<ParsedDocument>)
    ensures r == ParseOutcome(filename, file, extractors)
    ensures ParserKey(filename) == "pdf" ==> r == PdfOutcome(extractors.pdfPages(file))
    ensures ParserKey(filename) == "docx" ==> r == DocxOutcome(extractors.docxParagraphs(file))
    ensures ParserKey(filename) == "txt" ==> r == ParseTxt(file, extractors)
    ensures ParserKey(filename) !in {"pdf", "docx", "txt"} ==>
              r == Err(Error(FileValidation, "No parser for " + ParserKey(filename)))
    ensures r.Err? ==> r.error.kind in {FileValidation, DocumentParsing}
  {
    var ext := ParserKey(filename);
    if ext == "pdf" {
      r := ParsePdf(file, extractors);
    } else if ext == "docx" {
      r := ParseDocx(file, extractors);
    } else if ext == "txt" {
      r := ParseTxt(file, extractors);
    } else {
      r := Err(Error(FileValidation, "No parser for " + ext));
    }
  }
}
