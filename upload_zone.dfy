/**
 * The upload validator of components/UploadZone.tsx: which files are taken
 * as PDF documents, the size limit, and the choice between the two
 * callbacks the component is given.
 */
module UploadZone {
  import opened Wrappers
  import opened Text

  /** The parts of a browser `File` the validator reads. */
  datatype FileInfo = FileInfo(name: string, mimeType: string, size: nat)

  /** 20 MiB. */
  const MaxFileSize: nat := 20 * 1024 * 1024

  const NotPdfMessage: string := "Please upload a PDF file"
  const TooLargeMessage: string := "File size exceeds 20MB limit"

  /** The file declares the PDF MIME type, or its name ends in ".pdf" in any letter case. */
  predicate LooksLikePdf(file: FileInfo)
  {
    file.mimeType == "application/pdf" || EndsWithPdf(file.name)
  }

  /**
   * Returns the message to show, or None when the file is acceptable. The
   * type test comes first, so a file that fails both tests gets the type
   * message; the size test admits exactly `MaxFileSize` bytes.
   */
  function ValidateFile(file: FileInfo): (error: Option<string>)
    ensures error == None <==> LooksLikePdf(file) && file.size <= MaxFileSize
    ensures !LooksLikePdf(file) ==> error == Some(NotPdfMessage)
    ensures LooksLikePdf(file) && file.size > MaxFileSize ==> error == Some(TooLargeMessage)
  {
    if !LooksLikePdf(file) then
      Some(NotPdfMessage)
    else if file.size > MaxFileSize then
      Some(TooLargeMessage)
    else
      None
  }

  /** The size limit is inclusive: 20 MiB is accepted and one byte more is refused. */
  lemma SizeLimitBoundary(name: string, mimeType: string)
    requires LooksLikePdf(FileInfo(name, mimeType, 0))
    ensures MaxFileSize == 20971520
    ensures ValidateFile(FileInfo(name, mimeType, 20971520)) == None
    ensures ValidateFile(FileInfo(name, mimeType, 20971521)) == Some(TooLargeMessage)
  {
  }

  /** Either test alone admits a small file: a PDF MIME type with any name, or a ".PDF" name with any MIME type. */
  lemma EitherTestSuffices(stem: string, mimeType: string, size: nat)
    requires size <= MaxFileSize
    ensures ValidateFile(FileInfo(stem + ".txt", "application/pdf", size)) == None
    ensures ValidateFile(FileInfo(stem + ".PDF", mimeType, size)) == None
  {
    EndsWithPdfByLetters(stem + ".PDF");
  }

  /** What the component does with a file: exactly one of its two callbacks is called. */
  datatype Callback = FileSelected(file: FileInfo) | ErrorReported(message: string)

  /**
   * `handleFile`: report the validation message through `onError`, or pass the
   * file to `onFileSelect`. The branch is taken on the message's truthiness,
   * and every message is non-empty, so the error path is taken exactly when
   * validation fails.
   */
  function HandleFile(file: FileInfo): (call: Callback)
    ensures call.ErrorReported? <==> ValidateFile(file).Some?
    ensures call.ErrorReported? ==> call.message == ValidateFile(file).value
    ensures call.FileSelected? ==> call.file == file
  {
    var error := ValidateFile(file);
    if error.Some? && error.value != "" then ErrorReported(error.value) else FileSelected(file)
  }

  /**
   * A drop or a file-input change: only the first file of the list is
   * handled, and an empty list does nothing.
   */
  function HandleFileList(files: seq<FileInfo>): (call: Option<Callback>)
    ensures call.None? <==> files == []
    ensures call.Some? ==> (call.value.ErrorReported? <==> ValidateFile(files[0]).Some?)
    ensures call.Some? && call.value.ErrorReported? ==> call.value.message == ValidateFile(files[0]).value
    ensures call.Some? && call.value.FileSelected? ==> call.value.file == files[0]
  {
    if |files| > 0 then Some(HandleFile(files[0])) else None
  }
}
