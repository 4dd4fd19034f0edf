// Text extraction from stored files (RAGService.extract_text_from_file and its three readers,
// backend/services/rag_service.py).

module Extraction {
  import opened Wrappers
  import opened Text

  /**
   * What the format libraries make of one stored file, each reading either succeeding or
   * failing with the message of the exception it raises: the text of each PDF page in page
   * order, the text of each DOCX paragraph in document order, and the file read as UTF-8.
   */
  datatype FileSource = FileSource(
    pdfPages: Result<seq<string>, string>,
    docxParagraphs: Result<seq<string>, string>,
    textContent: Result<string, string>)

  const PartSeparator := "\n\n"
  const ExtractionErrorPrefix := "Failed to extract text: "

  function UnsupportedTypeMessage(fileType: string): string {
    "Unsupported file type: " + fileType
  }

  /** `if page_text:` */
  predicate PageHasText(page: string) { page != "" }

  /** `if paragraph.text.strip():` */
  predicate ParagraphHasText(paragraph: string) { Strip(paragraph) != "" }

  /** The elements of `xs` that satisfy `keep`, in order. */
  function Kept(xs: seq<string>, keep: string -> bool): (r: seq<string>)
    ensures |r| <= |xs|
    ensures forall x :: x in r ==> x in xs && keep(x)
  {
    if xs == [] then []
    else (if keep(xs[0]) then [xs[0]] else []) + Kept(xs[1..], keep)
  }

  /** When every element is kept the list comes back unchanged. */
  lemma {:induction false} KeptAll(xs: seq<string>, keep: string -> bool)
    requires forall i :: 0 <= i < |xs| ==> keep(xs[i])
    ensures Kept(xs, keep) == xs
    decreases |xs|
  {
    if xs != [] {
      assert forall i :: 0 <= i < |xs[1..]| ==> xs[1..][i] == xs[i + 1];
      KeptAll(xs[1..], keep);
      assert xs == [xs[0]] + xs[1..];
    }
  }

  lemma {:induction false} KeptAppend(a: seq<string>, b: seq<string>, keep: string -> bool)
    ensures Kept(a + b, keep) == Kept(a, keep) + Kept(b, keep)
    decreases |a|
  {
    if a == [] {
      assert a + b == b;
    } else {
      assert (a + b)[1..] == a[1..] + b;
      KeptAppend(a[1..], b, keep);
    }
  }

  /** Keeping from one more element at the end adds it when it passes. */
  lemma KeptSnoc(xs: seq<string>, x: string, keep: string -> bool)
    ensures Kept(xs + [x], keep) == Kept(xs, keep) + (if keep(x) then [x] else [])
  {
    KeptAppend(xs, [x], keep);
    assert [x][1..] == [];
  }

  /** An element that fails `keep` contributes nothing, wherever it stands. */
  lemma SkippedContributesNothing(a: seq<string>, x: string, b: seq<string>, keep: string -> bool)
    requires !keep(x)
    ensures Kept(a + [x] + b, keep) == Kept(a + b, keep)
  {
    KeptSingleSkipped(x, keep);
    KeptAppend(a + [x], b, keep);
    KeptAppend(a, [x], keep);
    KeptAppend(a, b, keep);
  }

  lemma KeptSingleSkipped(x: string, keep: string -> bool)
    requires !keep(x)
    ensures Kept([x], keep) == []
  {
    assert [x][1..] == [];
  }

  /** The text `_extract_from_pdf` returns for the given page texts. */
  function PdfText(pages: seq<string>): string {
    Join(Kept(pages, PageHasText), PartSeparator)
  }

  /** The text `_extract_from_docx` returns for the given paragraph texts. */
  function DocxText(paragraphs: seq<string>): string {
    Join(Kept(paragraphs, ParagraphHasText), PartSeparator)
  }

  /** `_extract_from_pdf`: the non-empty page texts joined by a blank line. */
  method ExtractFromPdf(pages: seq<string>) returns (text: string)
    ensures text == PdfText(pages)
  {
    var parts: seq<string> := [];
    for i := 0 to |pages|
      invariant parts == Kept(pages[..i], PageHasText)
    {
      var pageText := pages[i];
      assert pages[..i + 1] == pages[..i] + [pageText];
      KeptSnoc(pages[..i], pageText, PageHasText);
      if pageText != "" {
        parts := parts + [pageText];
      }
    }
    assert pages[..|pages|] == pages;
    text := Join(parts, PartSeparator);
  }

  /** `_extract_from_docx`: the paragraphs that are not blank, unstripped, joined by a blank line. */
  method ExtractFromDocx(paragraphs: seq<string>) returns (text: string)
    ensures text == DocxText(paragraphs)
  {
    var parts: seq<string> := [];
    for i := 0 to |paragraphs|
      invariant parts == Kept(paragraphs[..i], ParagraphHasText)
    {
      var paragraph := paragraphs[i];
      assert paragraphs[..i + 1] == paragraphs[..i] + [paragraph];
      KeptSnoc(paragraphs[..i], paragraph, ParagraphHasText);
      if Strip(paragraph) != "" {
        parts := parts + [paragraph];
      }
    }
    assert paragraphs[..|paragraphs|] == paragraphs;
    text := Join(parts, PartSeparator);
  }

  /** A page without text leaves the extracted text as it was. */
  lemma EmptyPageSkipped(before: seq<string>, after: seq<string>)
    ensures PdfText(before + [""] + after) == PdfText(before + after)
  {
    SkippedContributesNothing(before, "", after, PageHasText);
  }

  /** A whitespace-only paragraph leaves the extracted text as it was. */
  lemma BlankParagraphSkipped(before: seq<string>, paragraph: string, after: seq<string>)
    requires AllSpace(paragraph)
    ensures DocxText(before + [paragraph] + after) == DocxText(before + after)
  {
    StripEmptyIff(paragraph);
    SkippedContributesNothing(before, paragraph, after, ParagraphHasText);
  }

  /** A page with text is appended after a blank line. */
  lemma PdfTextSnoc(pages: seq<string>, page: string)
    requires Kept(pages, PageHasText) != [] && page != ""
    ensures PdfText(pages + [page]) == PdfText(pages) + PartSeparator + page
  {
    KeptSnoc(pages, page, PageHasText);
    JoinSnoc(Kept(pages, PageHasText), page, PartSeparator);
  }

  /**
   * `extract_text_from_file`: choose the reader by file type; every failure, including an
   * unsupported type, comes back with the extraction prefix.
   */
  function ExtractText(source: FileSource, fileType: string): (r: Result<string, string>)
    ensures r.Err? ==> ExtractionErrorPrefix <= r.error
    ensures fileType !in {"pdf", "docx", "txt", "md"}
      ==> r == Err(ExtractionErrorPrefix + UnsupportedTypeMessage(fileType))
    ensures fileType == "pdf" ==> r == (match source.pdfPages
      case Ok(pages) => Ok(PdfText(pages))
      case Err(e) => Err(ExtractionErrorPrefix + e))
    ensures fileType == "docx" ==> r == (match source.docxParagraphs
      case Ok(paragraphs) => Ok(DocxText(paragraphs))
      case Err(e) => Err(ExtractionErrorPrefix + e))
    ensures fileType in {"txt", "md"} ==> r == (match source.textContent
      case Ok(content) => Ok(content)
      case Err(e) => Err(ExtractionErrorPrefix + e))
  {
    var read: Result<string, string> :=
      if fileType == "pdf" then
        (match source.pdfPages
         case Ok(pages) => Ok(PdfText(pages))
         case Err(e) => Err(e))
      else if fileType == "docx" then
        (match source.docxParagraphs
         case Ok(paragraphs) => Ok(DocxText(paragraphs))
         case Err(e) => Err(e))
      else if fileType == "txt" || fileType == "md" then source.textContent
      else Err(UnsupportedTypeMessage(fileType));
    match read
    case Ok(text) => Ok(text)
    case Err(e) => Err(ExtractionErrorPrefix + e)
  }
}
