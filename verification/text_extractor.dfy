/** Text extraction from an uploaded file (utils/text_extractor.py): PDF and DOCX go to their
    readers, anything else is decoded as UTF-8 with a fixed message for undecodable bytes.
    The PDF and DOCX readers are oracles that hand back the page texts and the paragraph
    texts, or the error they raise. */
module TextExtractor {
  import opened Wrappers
  import opened Strs
  import opened Utf8

  const PdfMime := "application/pdf"
  const DocxMime := "application/vnd.openxmlformats-officedocument.wordprocessingml.document"
  const UnsupportedMessage := "지원하지 않는 파일 형식이거나 텍스트를 추출할 수 없습니다."

  /** `page.extract_text()`: a page may have no text (`None`). */
  type PdfReader = seq<byte> -> Result<seq<Option<string>>>
  /** The texts of `Document(...).paragraphs`. */
  type DocxReader = seq<byte> -> Result<seq<string>>

  /** `page.extract_text() or ""` */
  function PageText(p: Option<string>): string {
    match p
    case None => ""
    case Some(t) => t
  }

  /** `extract_text_from_pdf`'s loop: the page texts in order, a page without text adding nothing. */
  function PdfText(pages: seq<Option<string>>): string {
    if pages == [] then "" else PdfText(pages[..|pages| - 1]) + PageText(pages[|pages| - 1])
  }

  /** The PDF text is the concatenation of the page texts. */
  lemma {:induction false} PdfTextIsConcat(pages: seq<Option<string>>)
    ensures PdfText(pages) == Concat(seq(|pages|, k requires 0 <= k < |pages| => PageText(pages[k])))
  {
    if pages != [] {
      var texts := seq(|pages|, k requires 0 <= k < |pages| => PageText(pages[k]));
      var init := pages[..|pages| - 1];
      PdfTextIsConcat(init);
      assert texts[..|texts| - 1] == seq(|init|, k requires 0 <= k < |init| => PageText(init[k]));
    }
  }

  /** `extract_text_from_docx`'s loop: every paragraph followed by a newline. */
  function DocxText(paragraphs: seq<string>): string {
    if paragraphs == [] then ""
    else DocxText(paragraphs[..|paragraphs| - 1]) + paragraphs[|paragraphs| - 1] + "\n"
  }

  /** The DOCX text is the paragraphs joined by newlines, with one more newline at the end (none
      at all for a document without paragraphs). */
  lemma {:induction false} DocxTextIsJoin(paragraphs: seq<string>)
    ensures DocxText(paragraphs) == if paragraphs == [] then "" else Join(paragraphs, "\n") + "\n"
  {
    if paragraphs != [] {
      var init := paragraphs[..|paragraphs| - 1];
      var last := paragraphs[|paragraphs| - 1];
      DocxTextIsJoin(init);
      JoinSnoc(init, last, "\n");
      assert init + [last] == paragraphs;
    }
  }

  /** The DOCX text is the paragraphs and a final empty piece, joined by newlines. */
  lemma DocxTextAsJoin(paragraphs: seq<string>)
    requires paragraphs != []
    ensures DocxText(paragraphs) == Join(paragraphs + [""], "\n")
  {
    DocxTextIsJoin(paragraphs);
    JoinSnoc(paragraphs, "", "\n");
    assert Join(paragraphs, "\n") + "\n" + "" == Join(paragraphs, "\n") + "\n";
  }

  /** Splitting the DOCX text on newlines gives back the paragraphs (then an empty piece after
      the final newline), when no paragraph holds a newline itself. */
  lemma DocxTextLines(paragraphs: seq<string>)
    requires paragraphs != []
    requires forall k :: 0 <= k < |paragraphs| ==> '\n' !in paragraphs[k]
    ensures Split(DocxText(paragraphs), '\n') == paragraphs + [""]
  {
    var parts := paragraphs + [""];
    DocxTextAsJoin(paragraphs);
    forall k | 0 <= k < |parts| ensures '\n' !in parts[k] {
      if k < |paragraphs| { assert parts[k] == paragraphs[k]; }
    }
    SplitJoin(parts, '\n');
  }

  /** The undecodable-bytes branch: the decoded text, or the fixed message, never an error. */
  function DecodeOrMessage(content: seq<byte>): string {
    match Decode(content)
    case Some(s) => s
    case None => UnsupportedMessage
  }

  /** `extract_text_from_file`: dispatch on the MIME type; a reader's failure propagates. */
  function ExtractTextFromFile(content: seq<byte>, mime: string, pdf: PdfReader, docx: DocxReader): Result<string> {
    if mime == PdfMime then
      var pages :- pdf(content);
      Ok(PdfText(pages))
    else if mime == DocxMime then
      var paragraphs :- docx(content);
      Ok(DocxText(paragraphs))
    else
      Ok(DecodeOrMessage(content))
  }

  /** Any other MIME type never fails: well-formed UTF-8 decodes to the string it encodes, and
      ill-formed bytes give the fixed message. */
  lemma OtherMimeSpec(content: seq<byte>, mime: string, pdf: PdfReader, docx: DocxReader)
    requires mime != PdfMime && mime != DocxMime
    ensures var r := ExtractTextFromFile(content, mime, pdf, docx);
      && r.Ok?
      && (Decode(content).None? ==> r.value == UnsupportedMessage)
      && (Decode(content).Some? ==> Encode(r.value) == content)
  {
    if Decode(content).Some? {
      EncodeDecode(content);
    }
  }

  /** A text file is read back as the text that was saved. */
  lemma PlainTextRoundTrip(s: string, mime: string, pdf: PdfReader, docx: DocxReader)
    requires mime != PdfMime && mime != DocxMime
    ensures ExtractTextFromFile(Encode(s), mime, pdf, docx) == Ok(s)
  {
    DecodeEncode(s);
  }

  /** The two document types go to their own readers. */
  lemma DispatchSpec(content: seq<byte>, pdf: PdfReader, docx: DocxReader)
    ensures ExtractTextFromFile(content, PdfMime, pdf, docx)
         == (match pdf(content) case Ok(pages) => Ok(PdfText(pages)) case Err(e) => Err(e))
    ensures ExtractTextFromFile(content, DocxMime, pdf, docx)
         == (match docx(content) case Ok(ps) => Ok(DocxText(ps)) case Err(e) => Err(e))
  {
  }
}
