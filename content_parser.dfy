/**
 * The input dispatcher of content_parser.py: turns an input kind, an optional
 * uploaded file and an optional pasted text into the content text, or into the
 * error the Python code raises.
 *
 * UTF-8 decoding and PDF page extraction are foreign calls; they are parameters
 * here. `decode(bytes)` is `None` when `bytes.decode('utf-8')` raises, and
 * `readPdf(bytes)` is `None` when `PdfReader` cannot read the file, otherwise the
 * result of `extract_text()` for each page in order (`None` for a page without text).
 */
module ContentParser {
  import opened Wrappers

  type byte = b: int | 0 <= b < 256

  /** The uploaded file object: its `name` attribute and its contents. */
  datatype UploadedFile = UploadedFile(name: string, data: seq<byte>)

  /** One constructor per exception the dispatcher can end in. */
  datatype ParseError =
    | UnsupportedFileType   // ValueError for a name ending neither in .txt nor .pdf
    | NoFileUploaded        // ValueError for 'file_upload' without a file object
    | NoTextProvided        // ValueError for 'direct_paste' with no or empty text
    | InvalidInputType      // ValueError for any other input kind
    | DecodeFailed          // UnicodeDecodeError from bytes.decode('utf-8')
    | PdfUnreadable         // the PDF library could not open the file

  type Decoder = seq<byte> -> Option<string>
  type PdfReader = seq<byte> -> Option<seq<Option<string>>>

  const FILE_UPLOAD: string := "file_upload"
  const DIRECT_PASTE: string := "direct_paste"

  /** The text of the ValueErrors the dispatcher raises itself; the other two errors come from foreign code. */
  function Message(e: ParseError): (m: Option<string>)
    ensures m.None? <==> e == DecodeFailed || e == PdfUnreadable
  {
    match e
    case UnsupportedFileType => Some("Unsupported file type. Only .txt and .pdf are supported.")
    case NoFileUploaded => Some("No file uploaded for file_upload type.")
    case NoTextProvided => Some("No text provided for direct_paste type.")
    case InvalidInputType => Some("Invalid input type specified.")
    case DecodeFailed => None
    case PdfUnreadable => None
  }

  /** Python's `str.endswith`: case-sensitive, exact suffix. */
  function EndsWith(s: string, suffix: string): (b: bool)
    ensures b <==> exists prefix :: s == prefix + suffix
  {
    if |suffix| <= |s| && s[|s| - |suffix|..] == suffix then
      assert s == s[..|s| - |suffix|] + suffix;
      true
    else
      false
  }

  /** `page.extract_text() or ""`: a page without text contributes nothing. */
  function PageText(page: Option<string>): string {
    page.GetOr("")
  }

  /** The text of a list of pages, joined in order; the specification of the PDF loop. */
  function ConcatPages(pages: seq<Option<string>>): string
  {
    if pages == [] then "" else ConcatPages(pages[..|pages| - 1]) + PageText(pages[|pages| - 1])
  }

  /** Joining two runs of pages is joining their texts. */
  lemma {:induction false} ConcatPagesAppend(a: seq<Option<string>>, b: seq<Option<string>>)
    ensures ConcatPages(a + b) == ConcatPages(a) + ConcatPages(b)
  {
    if b == [] {
      assert a + b == a;
    } else {
      assert (a + b)[..|a + b| - 1] == a + b[..|b| - 1];
      ConcatPagesAppend(a, b[..|b| - 1]);
    }
  }

  /** A page's text stands between the texts of the pages before and after it. */
  lemma PageInPlace(before: seq<Option<string>>, page: Option<string>, after: seq<Option<string>>)
    ensures ConcatPages(before + [page] + after) == ConcatPages(before) + PageText(page) + ConcatPages(after)
  {
    ConcatPagesAppend(before + [page], after);
    ConcatPagesAppend(before, [page]);
    assert [page][..0] == [];
  }

  /** A document whose pages all lack text yields the empty text (so does a document without pages). */
  lemma {:induction false} NoTextPagesGiveEmpty(pages: seq<Option<string>>)
    requires forall i :: 0 <= i < |pages| ==> pages[i].None?
    ensures ConcatPages(pages) == ""
  {
    if pages != [] {
      NoTextPagesGiveEmpty(pages[..|pages| - 1]);
    }
  }

  /** The length of the document text is the sum of the page text lengths. */
  function TotalLength(pages: seq<Option<string>>): nat {
    if pages == [] then 0 else |PageText(pages[0])| + TotalLength(pages[1..])
  }

  lemma {:induction false} ConcatPagesLength(pages: seq<Option<string>>)
    ensures |ConcatPages(pages)| == TotalLength(pages)
  {
    if pages != [] {
      assert pages == [pages[0]] + pages[1..];
      ConcatPagesAppend([pages[0]], pages[1..]);
      assert ConcatPages([pages[0]]) == PageText(pages[0]) by {
        assert [pages[0]][..0] == [];
      }
      ConcatPagesLength(pages[1..]);
    }
  }

  /** `load_text_from_txt`: the UTF-8 decoding of the bytes, or the decode error. */
  function LoadTextFromTxt(data: seq<byte>, decode: Decoder): (r: Result<string, ParseError>)
    ensures r.Success? <==> decode(data).Some?
    ensures r.Success? ==> r.value == decode(data).value
    ensures r.Failure? ==> r.error == DecodeFailed
  {
    match decode(data)
    case Some(text) => Success(text)
    case None => Failure(DecodeFailed)
  }

  /** What `load_text_from_pdf` returns: the joined page texts, or the reader's failure. */
  function PdfText(data: seq<byte>, readPdf: PdfReader): (r: Result<string, ParseError>)
    ensures r.Success? <==> readPdf(data).Some?
    ensures r.Success? ==> r.value == ConcatPages(readPdf(data).value)
    ensures r.Failure? ==> r.error == PdfUnreadable
  {
    match readPdf(data)
    case Some(pages) => Success(ConcatPages(pages))
    case None => Failure(PdfUnreadable)
  }

  /** `load_text_from_pdf`: open the reader, then append each page's text to an accumulator. */
  method LoadTextFromPdf(data: seq<byte>, readPdf: PdfReader) returns (r: Result<string, ParseError>)
    ensures r == PdfText(data, readPdf)
    ensures r.Success? <==> readPdf(data).Some?
  {
    var reader := readPdf(data);
    if reader.None? {
      return Failure(PdfUnreadable);
    }
    var pages := reader.value;
    var text := "";
    for i := 0 to |pages|
      invariant text == ConcatPages(pages[..i])
    {
      assert pages[..i + 1][..i] == pages[..i];
      text := text + PageText(pages[i]);
    }
    assert pages[..|pages|] == pages;
    return Success(text);
  }

  /** `parse_input_content`: dispatch on the input kind, then on the file name's suffix. */
  function ParseInputContent(inputType: string, file: Option<UploadedFile>, directText: Option<string>,
                             decode: Decoder, readPdf: PdfReader): (r: Result<string, ParseError>)
    // any other kind fails, whatever the other arguments are
    ensures r == Failure(InvalidInputType) <==> inputType != FILE_UPLOAD && inputType != DIRECT_PASTE
    // pasted text: returned verbatim when non-empty, otherwise an error; the file is ignored
    ensures inputType == DIRECT_PASTE ==>
              (r.Success? <==> directText.Some? && directText.value != "") &&
              (r.Success? ==> r.value == directText.value) &&
              (r.Failure? ==> r.error == NoTextProvided)
    // file upload: the pasted text is ignored
    ensures inputType == FILE_UPLOAD && file.None? ==> r == Failure(NoFileUploaded)
    ensures inputType == FILE_UPLOAD && file.Some? && EndsWith(file.value.name, ".txt") ==>
              r == LoadTextFromTxt(file.value.data, decode)
    ensures inputType == FILE_UPLOAD && file.Some? && EndsWith(file.value.name, ".pdf") ==>
              r == PdfText(file.value.data, readPdf)
    ensures inputType == FILE_UPLOAD && file.Some? ==>
              (r == Failure(UnsupportedFileType) <==>
               !EndsWith(file.value.name, ".txt") && !EndsWith(file.value.name, ".pdf"))
    // each error belongs to one branch
    ensures r == Failure(NoTextProvided) ==> inputType == DIRECT_PASTE
    ensures r.Failure? && r.error in {NoFileUploaded, UnsupportedFileType, DecodeFailed, PdfUnreadable} ==>
              inputType == FILE_UPLOAD
  {
    if inputType == FILE_UPLOAD then
      match file
      case Some(f) =>
        if EndsWith(f.name, ".txt") then LoadTextFromTxt(f.data, decode)
        else if EndsWith(f.name, ".pdf") then PdfText(f.data, readPdf)
        else Failure(UnsupportedFileType)
      case None => Failure(NoFileUploaded)
    else if inputType == DIRECT_PASTE then
      match directText
      case Some(t) => if t != "" then Success(t) else Failure(NoTextProvided)
      case None => Failure(NoTextProvided)
    else
      Failure(InvalidInputType)
  }

  /** No name ends in both suffixes, so the order of the two suffix tests does not matter. */
  lemma TxtAndPdfExclusive(name: string)
    ensures !(EndsWith(name, ".txt") && EndsWith(name, ".pdf"))
  {
  }

  /** A text file whose bytes decode to `t` yields exactly `t`. */
  lemma TxtUploadYieldsDecodedText(name: string, data: seq<byte>, t: string, directText: Option<string>,
                                   decode: Decoder, readPdf: PdfReader)
    requires EndsWith(name, ".txt") && decode(data) == Some(t)
    ensures ParseInputContent(FILE_UPLOAD, Some(UploadedFile(name, data)), directText, decode, readPdf) == Success(t)
  {
  }

  /** The suffix test is case-sensitive: a name ending in ".TXT" or ".PDF" is unsupported, whatever the file holds. */
  lemma UpperCaseSuffixUnsupported(name: string, data: seq<byte>, directText: Option<string>,
                                   decode: Decoder, readPdf: PdfReader)
    requires EndsWith(name, ".TXT") || EndsWith(name, ".PDF")
    ensures ParseInputContent(FILE_UPLOAD, Some(UploadedFile(name, data)), directText, decode, readPdf)
            == Failure(UnsupportedFileType)
  {
    assert name[|name| - 1] == 'T' || name[|name| - 1] == 'F';
  }

  /**
   * Every error the dispatcher raises itself has its fixed message; an error
   * without one comes from a file whose decoding or reading failed.
   */
  lemma ForeignErrorsComeFromFiles(inputType: string, file: Option<UploadedFile>, directText: Option<string>,
                                   decode: Decoder, readPdf: PdfReader)
    ensures var r := ParseInputContent(inputType, file, directText, decode, readPdf);
            r.Failure? && Message(r.error).None? ==>
              inputType == FILE_UPLOAD && file.Some? &&
              (decode(file.value.data).None? || readPdf(file.value.data).None?)
  {
  }
}
