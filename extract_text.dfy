/** MIME-type dispatch of `extractTextFromS3` (lib/extractText.ts). The S3
    request, the stream read and both document parsers are parameters. */
module ExtractText {
  import opened Wrappers

  type Bytes = seq<bv8>

  const PDF_TYPE := "application/pdf"
  const DOCX_TYPE := "application/vnd.openxmlformats-officedocument.wordprocessingml.document"
  const UNSUPPORTED := "Unsupported file type"

  /** The outcomes of the outside calls: `s3Client.send` for a key (its
      result holds the outcome of reading the body stream into a buffer),
      `pdf-parse`'s `text` and mammoth's raw text for a buffer. */
  datatype Storage = Storage(
    send: string -> Call<Call<Bytes>>,
    pdfText: Bytes -> Call<string>,
    docxText: Bytes -> Call<string>)

  /** `extractTextFromS3`. */
  function ExtractTextFromS3(fileKey: string, fileType: string, storage: Storage): (r: Call<string>)
    ensures r.Returned? ==> fileType == PDF_TYPE || fileType == DOCX_TYPE
    ensures storage.send(fileKey).Threw? ==> r == Threw(storage.send(fileKey).thrown)
  {
    match storage.send(fileKey)
    case Threw(e) => Threw(e)
    case Returned(buffer) =>
      if fileType == PDF_TYPE then
        match buffer
        case Threw(e) => Threw(e)
        case Returned(bytes) => storage.pdfText(bytes)
      else if fileType == DOCX_TYPE then
        match buffer
        case Threw(e) => Threw(e)
        case Returned(bytes) => storage.docxText(bytes)
      else Threw(Err(UNSUPPORTED))
  }

  /** A PDF yields the parser's text exactly as the parser gave it, and a
      Word document mammoth's raw text; a failed read surfaces its error. */
  lemma SupportedTypesVerbatim(fileKey: string, fileType: string, storage: Storage)
    requires storage.send(fileKey).Returned?
    requires fileType == PDF_TYPE || fileType == DOCX_TYPE
    ensures var buffer := storage.send(fileKey).value;
      ExtractTextFromS3(fileKey, fileType, storage) ==
        match buffer
        case Threw(e) => Threw(e)
        case Returned(bytes) => if fileType == PDF_TYPE then storage.pdfText(bytes) else storage.docxText(bytes)
  {
  }

  /** Any other type is refused once the object was fetched, whether or not
      its body could be read. */
  lemma OtherTypesRefused(fileKey: string, fileType: string, storage: Storage)
    requires storage.send(fileKey).Returned?
    requires fileType != PDF_TYPE && fileType != DOCX_TYPE
    ensures ExtractTextFromS3(fileKey, fileType, storage) == Threw(Err(UNSUPPORTED))
  {
  }

  /** The comparison is exact: an upper-case spelling of the PDF type is
      refused. */
  lemma TypeMatchIsCaseSensitive(fileKey: string, storage: Storage)
    requires storage.send(fileKey).Returned?
    ensures ExtractTextFromS3(fileKey, "APPLICATION/PDF", storage) == Threw(Err(UNSUPPORTED))
  {
    assert "APPLICATION/PDF"[0] != PDF_TYPE[0];
    assert |"APPLICATION/PDF"| != |DOCX_TYPE|;
  }
}
