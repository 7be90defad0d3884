/**
 * The export button of components/ProcessButton.tsx: the name given to the
 * downloaded file, and the `processing` / `error` state around one export.
 */
module ProcessButton {
  import opened Wrappers
  import opened Text
  import opened PdfProcessor

  function LayoutName(layout: Layout): string
  {
    match layout
    case TwoUp => "2-up"
    case FourUp => "4-up"
  }

  function OrientationName(orientation: Orientation): string
  {
    match orientation
    case Landscape => "landscape"
    case Portrait => "portrait"
  }

  /**
   * `fileName.replace(/\.pdf$/i, "")`: drop one trailing ".pdf" written in any
   * letter case, and nothing else. The result followed by the dropped four
   * characters is the original name.
   */
  function BaseName(fileName: string): (base: string)
    ensures EndsWithPdf(fileName) ==> |base| == |fileName| - 4 && base + fileName[|base|..] == fileName
    ensures !EndsWithPdf(fileName) ==> base == fileName
  {
    if EndsWithPdf(fileName) then fileName[..|fileName| - 4] else fileName
  }

  /** `${baseName}-${layout}-${orientation}.pdf` */
  function OutputFileName(fileName: string, layout: Layout, orientation: Orientation): (name: string)
    ensures EndsWith(name, ".pdf") && EndsWithPdf(name)
    ensures BaseName(name) == BaseName(fileName) + "-" + LayoutName(layout) + "-" + OrientationName(orientation)
  {
    var stem := BaseName(fileName) + "-" + LayoutName(layout) + "-" + OrientationName(orientation);
    StripsAppendedExtension(stem, ".pdf");
    stem + ".pdf"
  }

  /** Appending ".pdf" in any letter case and taking the base name gives back the stem. */
  lemma StripsAppendedExtension(stem: string, extension: string)
    requires |extension| == 4 && Lower(extension) == ".pdf"
    ensures EndsWithPdf(stem + extension)
    ensures BaseName(stem + extension) == stem
  {
    var name := stem + extension;
    assert Lower(name)[|name| - 4..] == Lower(extension);
  }

  /** Only one extension goes: "x.pdf.pdf" becomes "x.pdf". */
  lemma StripsOnlyOneExtension(stem: string)
    ensures BaseName(stem + ".pdf" + ".pdf") == stem + ".pdf"
  {
    StripsAppendedExtension(stem + ".pdf", ".pdf");
  }

  /** A ".pdf" inside the name is kept: "a.pdf.txt" stays whole. */
  lemma KeepsInnerExtension(stem: string)
    ensures BaseName(stem + ".pdf" + ".txt") == stem + ".pdf" + ".txt"
  {
    EndsWithPdfByLetters(stem + ".pdf" + ".txt");
  }

  /** One finished export: the download name and the document handed to the browser. */
  datatype Download = Download(name: string, sheets: seq<Sheet>)

  const FailureMessage: string := "Failed to process PDF. Please try again."

  /** The component's state, plus a record of the downloads it started and of its `onSuccess` calls. */
  class ExportButton {
    var processing: bool
    var error: Option<string>
    var downloads: seq<Download>
    var successCalls: nat

    constructor ()
      ensures !processing && error == None && downloads == [] && successCalls == 0
    {
      processing := false;
      error := None;
      downloads := [];
      successCalls := 0;
    }

    /** Entering `handleProcess`: the button shows progress and any old error is cleared. */
    method Start()
      modifies this
      ensures processing && error == None
      ensures downloads == old(downloads) && successCalls == old(successCalls)
    {
      processing := true;
      error := None;
    }

    /**
     * One export. `loaded` is what loading the stored document gave: its page
     * sizes, or the value the document library threw. On success the composed
     * document is downloaded under `OutputFileName` and `onSuccess` is called
     * once; on failure the fixed message is shown and nothing is downloaded.
     * Either way the button leaves its busy state.
     */
    method HandleProcess(fileName: string, layout: Layout, spacing: Spacing, orientation: Orientation,
                         loaded: Result<seq<PageSize>, Thrown>)
      modifies this
      ensures !processing
      ensures loaded.Ok? ==>
        && error == None
        && downloads == old(downloads)
             + [Download(OutputFileName(fileName, layout, orientation), Composition(loaded.value, layout, spacing))]
        && successCalls == old(successCalls) + 1
      ensures loaded.Err? ==>
        && error == Some(FailureMessage)
        && downloads == old(downloads)
        && successCalls == old(successCalls)
    {
      Start();
      match loaded {
        case Ok(pages) =>
          var sheets := CombinePages(pages, layout, spacing);
          var baseName := BaseName(fileName);
          var outputFileName := baseName + "-" + LayoutName(layout) + "-" + OrientationName(orientation) + ".pdf";
          downloads := downloads + [Download(outputFileName, sheets)];
          processing := false;
          successCalls := successCalls + 1;
        case Err(_) =>
          error := Some(FailureMessage);
          processing := false;
      }
    }
  }
}
