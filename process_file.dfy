/** The upload handler: dispatch on the file's MIME type to PDF parsing or OCR, then removal of
    NUL characters from the extracted text. */
module ProcessFile {
  import opened Js

  type byte = bv8

  /** What `formData.get('file')` returns: nothing, a text field, or a file whose size is the
      length of its contents. */
  datatype FormEntry = NoEntry | TextEntry(value: string) | FileEntry(mimeType: string, bytes: seq<byte>)

  datatype ProcessResult = Extracted(text: string) | ProcessError(error: string)

  const NoFileMessage: string := "No file provided or file is empty."
  const UnsupportedMessage: string := "Unsupported file type"
  const ProcessingFailedMessage: string := "Error processing file"
  const PdfType: string := "application/pdf"
  const ImagePrefix: string := "image/"

  const Nul: char := '\0'

  predicate NoNul(s: string) {
    forall i :: 0 <= i < |s| ==> s[i] != Nul
  }

  /** `text.replace(/\x00/g, '')`. */
  function StripNul(s: string): (t: string)
    ensures NoNul(t)
    ensures |t| <= |s|
    ensures forall c :: c != Nul ==> multiset(t)[c] == multiset(s)[c]
  {
    if s == [] then []
    else
      assert s == [s[0]] + s[1..];
      if s[0] == Nul then StripNul(s[1..]) else [s[0]] + StripNul(s[1..])
  }

  /** Each NUL removed shortens the text by one, and nothing else is removed. */
  lemma {:induction false} StripNulLength(s: string)
    ensures |StripNul(s)| == |s| - multiset(s)[Nul]
  {
    if s != [] {
      StripNulLength(s[1..]);
      assert s == [s[0]] + s[1..];
      assert multiset(s) == multiset{s[0]} + multiset(s[1..]);
    }
  }

  /** Text without NULs passes through unchanged, and only such text does. */
  lemma {:induction false} StripNulIdentityIff(s: string)
    ensures StripNul(s) == s <==> NoNul(s)
  {
    if s != [] {
      StripNulIdentityIff(s[1..]);
      if s[0] == Nul {
        assert |StripNul(s)| <= |s[1..]| < |s|;
      } else {
        assert NoNul(s) <==> NoNul(s[1..]);
      }
    }
  }

  /** Sanitising is idempotent. */
  lemma StripNulIdempotent(s: string)
    ensures StripNul(StripNul(s)) == StripNul(s)
  {
    StripNulIdentityIff(StripNul(s));
  }

  /** Sanitising a concatenation sanitises each part, so chunks may be cleaned one at a time. */
  lemma {:induction false} StripNulConcat(a: string, b: string)
    ensures StripNul(a + b) == StripNul(a) + StripNul(b)
  {
    if a == [] {
      assert a + b == b;
    } else {
      assert (a + b)[0] == a[0];
      assert (a + b)[1..] == a[1..] + b;
      StripNulConcat(a[1..], b);
    }
  }

  /** `processFile(formData)`. `pdf` and `ocr` are the extractors, `None` when they throw. */
  function Process(entry: FormEntry, pdf: seq<byte> -> Option<string>, ocr: seq<byte> -> Option<string>): (r: ProcessResult)
    ensures r == ProcessError(NoFileMessage) <==>
      entry.NoEntry? || entry == TextEntry("") || (entry.FileEntry? && |entry.bytes| == 0)
    ensures r == ProcessError(UnsupportedMessage) <==>
      entry.FileEntry? && |entry.bytes| > 0 && entry.mimeType != PdfType && !StartsWith(entry.mimeType, ImagePrefix)
    ensures r.Extracted? ==>
      entry.FileEntry? && |entry.bytes| > 0 && NoNul(r.text)
    ensures entry.TextEntry? && entry.value != "" ==> r == ProcessError(ProcessingFailedMessage)
    ensures entry.FileEntry? && |entry.bytes| > 0 && entry.mimeType == PdfType ==>
      r == match pdf(entry.bytes)
           case Some(text) => Extracted(StripNul(text))
           case None => ProcessError(ProcessingFailedMessage)
    ensures entry.FileEntry? && |entry.bytes| > 0 && entry.mimeType != PdfType && StartsWith(entry.mimeType, ImagePrefix) ==>
      r == match ocr(entry.bytes)
           case Some(text) => Extracted(StripNul(text))
           case None => ProcessError(ProcessingFailedMessage)
  {
    match entry
    case NoEntry => ProcessError(NoFileMessage)
    // a non-empty text field has no size and no `arrayBuffer`, so reading it throws
    case TextEntry(value) => if value == "" then ProcessError(NoFileMessage) else ProcessError(ProcessingFailedMessage)
    case FileEntry(mimeType, bytes) =>
      if |bytes| == 0 then ProcessError(NoFileMessage)
      else
        var extracted :=
          if mimeType == PdfType then pdf(bytes)
          else if StartsWith(mimeType, ImagePrefix) then ocr(bytes)
          else None;
        if mimeType != PdfType && !StartsWith(mimeType, ImagePrefix) then ProcessError(UnsupportedMessage)
        else if extracted.None? then ProcessError(ProcessingFailedMessage)
        else Extracted(StripNul(extracted.value))
  }

  /** The extractor that is not selected is never consulted. */
  lemma PdfIgnoresOcr(mimeType: string, bytes: seq<byte>, pdf: seq<byte> -> Option<string>,
                      ocr1: seq<byte> -> Option<string>, ocr2: seq<byte> -> Option<string>)
    requires mimeType == PdfType
    ensures Process(FileEntry(mimeType, bytes), pdf, ocr1) == Process(FileEntry(mimeType, bytes), pdf, ocr2)
  {
  }
}
