/**
  File content for embeddings: reading a PDF into one string, page after page,
  and cutting content into chunks. File-type detection, PDF loading and text
  extraction are the libraries' work; their outcomes are inputs here.
 */
module Embeddings {
  import opened Wrappers
  import Text

  const PdfMime := "application/pdf"

  /** `IOError` and `PdfError` carry the library error's message. */
  datatype FileError =
    | IOError(reason: string)
    | ParsingError(message: string)
    | PdfError(reason: string)
    | UnsuportedFileType

  /**
    A loaded PDF: how many pages it has and what extracting the text of page
    number `n` (counting from 1) gives, `None` when extraction fails.
   */
  datatype PdfDocument = PdfDocument(pageCount: nat, extractText: nat -> Option<string>)

  /** What page number `n` contributes: its text, or "" when extraction fails. */
  function PageText(doc: PdfDocument, n: nat): string {
    doc.extractText(n).GetOr("")
  }

  /** The text of pages 1 to `n`, in page order, with nothing between them. */
  function PdfText(doc: PdfDocument, n: nat): string {
    if n == 0 then "" else PdfText(doc, n - 1) + PageText(doc, n)
  }

  /** Joining with the empty separator is plain concatenation, one part at a time. */
  lemma {:induction false} JoinAppendEmpty(parts: seq<string>, x: string)
    ensures Text.Join(parts + [x], "") == Text.Join(parts, "") + x
    decreases |parts|
  {
    if |parts| == 0 {
      assert parts + [x] == [x];
    } else if |parts| == 1 {
      assert (parts + [x])[1..] == [x];
    } else {
      assert (parts + [x])[1..] == parts[1..] + [x];
      JoinAppendEmpty(parts[1..], x);
    }
  }

  /** The text of the first pages is a prefix of the text of more pages: pages keep their order. */
  lemma {:induction false} PdfTextGrows(doc: PdfDocument, m: nat, n: nat)
    requires m <= n
    ensures PdfText(doc, m) <= PdfText(doc, n)
    ensures |PdfText(doc, n)| >= |PdfText(doc, m)|
    decreases n
  {
    if m < n {
      PdfTextGrows(doc, m, n - 1);
      assert PdfText(doc, n - 1) <= PdfText(doc, n);
    }
  }

  /** Page number `n` (1-based) comes right after the pages before it, in the whole text. */
  lemma PageInPlace(doc: PdfDocument, n: nat)
    requires 1 <= n <= doc.pageCount
    ensures PdfText(doc, n - 1) + PageText(doc, n) <= PdfText(doc, doc.pageCount)
  {
    PdfTextGrows(doc, n, doc.pageCount);
  }

  /** A page whose extraction fails adds nothing. */
  lemma FailedPageAddsNothing(doc: PdfDocument, n: nat)
    requires 1 <= n && doc.extractText(n).None?
    ensures PdfText(doc, n) == PdfText(doc, n - 1)
  {
  }

  datatype ChunkGenerator =
    | ParagraphGenerator
      /** Unicode sentence segmentation, which is not part of this model: a parameter. */
    | SentenseGenerator(sentences: string -> seq<string>)
  {
    /**
      Paragraph chunks are the leftmost-first split of the content, which joins
      back to it with one more piece than it has separators; sentence chunks
      are the segmentation of the content.
     */
    function Generate(content: string): (chunks: seq<string>)
      ensures ParagraphGenerator? ==> chunks == Paragraphs(content)
      ensures ParagraphGenerator? ==> Text.Join(chunks, "\n\n") == content
      ensures ParagraphGenerator? ==> |chunks| == 1 + Text.Count(content, "\n\n")
      ensures SentenseGenerator? ==> chunks == sentences(content)
    {
      match this
      case ParagraphGenerator => Paragraphs(content)
      case SentenseGenerator(sentences) => sentences(content)
    }
  }

  /**
    `content.split("\n\n")`: the pieces join back to the content, each but the
    last ends before the leftmost separator of what follows it, none contains
    the separator, there is at least one, an input without the separator
    (the empty string included) is its own single piece, and there is one piece
    more than the separator has leftmost, non-overlapping occurrences.
   */
  function Paragraphs(content: string): (pieces: seq<string>)
    ensures Text.Join(pieces, "\n\n") == content
    ensures Text.ValidSplit(pieces, "\n\n")
    ensures forall i :: 0 <= i < |pieces| ==> !Text.Contains(pieces[i], "\n\n")
    ensures |pieces| >= 1
    ensures !Text.Contains(content, "\n\n") ==> pieces == [content]
    ensures |pieces| == 1 + Text.Count(content, "\n\n")
  {
    var pieces := Text.Split(content, "\n\n");
    Text.PiecesAvoidSeparator(pieces, "\n\n");
    Text.SplitCount(content, "\n\n");
    Text.SplitWithoutSeparator(content, "\n\n");
    pieces
  }

  /** Paragraphs are the unique leftmost-first split: splitting a join of such pieces gives them back. */
  lemma ParagraphsOfJoin(pieces: seq<string>)
    requires Text.ValidSplit(pieces, "\n\n")
    ensures Paragraphs(Text.Join(pieces, "\n\n")) == pieces
  {
    Text.SplitOfJoin(pieces, "\n\n");
  }

  datatype Content = Content(content: string)
  {
    /** Chunking hands the stored content, unchanged, to the generator. */
    function GenChunks(generator: ChunkGenerator): (chunks: seq<string>)
      ensures generator.SentenseGenerator? ==> chunks == generator.sentences(content)
      ensures generator.ParagraphGenerator? ==> chunks == Paragraphs(content)
      ensures generator.ParagraphGenerator? ==> Text.Join(chunks, "\n\n") == content
    {
      generator.Generate(content)
    }
  }

  /**
    `parse_pdf`, given the outcome of loading the document: a load failure is
    a `PdfError`; otherwise the content is the page texts of pages 1 to the
    page count, in order and with nothing between them.
   */
  method ParsePdf(load: Result<PdfDocument, string>) returns (r: Result<Content, FileError>)
    ensures load.Err? ==> r == Err(PdfError(load.error))
    ensures load.Ok? ==> r == Ok(Content(PdfText(load.value, load.value.pageCount)))
  {
    if load.Err? {
      return Err(PdfError(load.error));
    }
    var doc := load.value;
    var texts: seq<string> := [];
    for i := 0 to doc.pageCount
      invariant |texts| == i
      invariant Text.Join(texts, "") == PdfText(doc, i)
    {
      var pageNumber := i + 1;
      var text := doc.extractText(pageNumber);
      JoinAppendEmpty(texts, text.GetOr(""));
      texts := texts + [text.GetOr("")];
    }
    return Ok(Content(Text.Join(texts, "")));
  }

  /**
    `from_path`, given the detected file type and the outcome of loading the
    file as a PDF: a detection failure is an `IOError`, an undetected type and
    any type but PDF are `ParsingError`s, and a PDF is parsed.
   */
  method FromPath(detect: Result<Option<string>, string>, load: Result<PdfDocument, string>)
    returns (r: Result<Content, FileError>)
    ensures detect.Err? ==> r == Err(IOError(detect.error))
    ensures detect == Ok(None) ==> r == Err(ParsingError("file type not supported"))
    ensures detect.Ok? && detect.value.Some? && detect.value.value != PdfMime
            ==> r == Err(ParsingError("unsuported file"))
    ensures detect == Ok(Some(PdfMime)) && load.Err? ==> r == Err(PdfError(load.error))
    ensures detect == Ok(Some(PdfMime)) && load.Ok?
            ==> r == Ok(Content(PdfText(load.value, load.value.pageCount)))
    ensures r.Ok? ==> detect == Ok(Some(PdfMime))
  {
    match detect
    case Err(why) =>
      return Err(IOError(why));
    case Ok(None) =>
      return Err(ParsingError("file type not supported"));
    case Ok(Some(mime)) =>
      if mime == PdfMime {
        r := ParsePdf(load);
      } else {
        return Err(ParsingError("unsuported file"));
      }
  }
}
