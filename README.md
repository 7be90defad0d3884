# N-up imposition engine — a Dafny model

This project models the core of a browser tool that re-paginates a PDF so that
two or four source pages are tiled onto each output sheet ("2-up" / "4-up"
imposition). The core is:

- the **placement calculator** (`calculatePlacements`): the cell rectangles
  for each layout and spacing preset on the fixed 792 × 612 pt landscape
  Letter sheet;
- the **fit scaler** (`calculateScale`): a uniform "fit inside" scale with
  centring offsets;
- the **composition loop** (`combinePages`) and the standalone sheet count
  (`getOutputPageCount`);
- the small decision logic around it: the upload validator, the download
  file name and the export button's `processing` / `error` state, and the
  preview controller's decode loop, bounded render loop, cancellation-flag
  gating and error classification.

Modules, one per file:

| file | module | models |
|---|---|---|
| `wrappers.dfy` | `Wrappers` | `Option`, `Result`, and `Thrown` (a JavaScript `Error` with its message, or any other thrown value) |
| `text.dfy` | `Text` | ASCII lower-casing, `endsWith`, `includes`, the ".pdf"-suffix test |
| `pdf_processor.dfy` | `PdfProcessor` | lib/pdf-processor.ts |
| `upload_zone.dfy` | `UploadZone` | `validateFile`, `handleFile` and the first-file dispatch of components/UploadZone.tsx |
| `process_button.dfy` | `ProcessButton` | download name and `handleProcess` of components/ProcessButton.tsx |
| `pdf_preview.dfy` | `PdfPreview` | `generatePreview` and the "+N more" note of components/PdfPreview.tsx |

Modelling choices:

- Geometry is in `real`, so the tiling equalities hold exactly.
- The document library is abstract. A source document is a `seq<PageSize>`.
  `PageSize` is a subset type with positive width and height. An output
  document is a `seq<Sheet>`. Each `Sheet` holds its `DrawOp`s (source index,
  x, y, width, height) in drawing order.
- `CombinePages` is a method with the source's two nested loops. The slot
  loop is a separate method, `FillSheet`, so that each loop is verified on
  its own. Both are proved equal to the specification function
  `Composition`, and the lemmas about `Composition` carry the properties.
- The code has no orientation handling. `ProcessOptions` carries only a
  layout and a spacing. Every sheet is 792 × 612 and 2-up is always side by
  side. Of the outputs, orientation changes only the download name. It
  also appears in the preview's labels and among the inputs that re-run the
  preview, which then composes the same sheets. The code has no
  portrait sheets, no stacked 2-up, no lenient-parse retry and no error for
  bad page sizes, so neither does the model.
- One preview run is modelled sequentially. An `Environment` value supplies
  what `atob` gives, what loading the decoded bytes gives, the rasterizer's
  behaviour, and the cancellation flag's value at each `CheckPoint` where
  the code reads it. The rasterizer is taken to report as many pages as the
  composed document has sheets.
- Case-insensitive tests fold ASCII letters only. Both `toLowerCase().endsWith(".pdf")`
  and `/\.pdf$/i` (without the `u` flag) treat ".pdf" this way, because no
  non-ASCII character folds onto '.', 'p', 'd' or 'f'.
- `if (error)` in `handleFile` tests the message's truthiness. The model
  does the same and proves that every message is non-empty.

## Model

| member | source | states |
|---|---|---|
| `PdfProcessor.CalculatePlacements` | lib/pdf-processor.ts:36-72 | 2 cells for 2-up and 4 for 4-up; all cells have the same positive size; each lies inside the 792×612 sheet; any two cells are disjoint; the cells come in reading order (top row before bottom, left before right) |
| `PdfProcessor.MarginsAndGap` | lib/pdf-processor.ts:15-43 | the margins are 2%, 5% or 10% of the sheet width and height; the gap is the smaller margin (the vertical one), so it never exceeds either margin |
| `PdfProcessor.PlacementsTileSheet` | lib/pdf-processor.ts:41-70 | across: margin + cell + gap + cell + margin = 792; up: margin + cell + margin = 612 (2-up) or margin + cell + gap + cell + margin = 612 (4-up); the right column starts at marginX + w + gap; the 4-up top row sits at marginY + h + gap |
| `PdfProcessor.CalculateScale` | lib/pdf-processor.ts:77-94 | for a positive page size the scaled page fits the cell and fills it on at least one axis; 2·offset + scaled size = cell size on both axes; offsets are non-negative and the scale is positive for a positive cell |
| `PdfProcessor.FitIsLargest` | lib/pdf-processor.ts:83-85 | no uniform scale larger than the computed one fits, so the scale is min(tw/pw, th/ph) |
| `PdfProcessor.CentredPageInsideCell` | lib/pdf-processor.ts:88-91 | the page drawn at (cell.x + offsetX, cell.y + offsetY) at the scaled size stays inside its cell |
| `PdfProcessor.GetOutputPageCount` | lib/pdf-processor.ts:167-170 | the count is the ceiling of n / pagesPerSheet: n ≤ count·pps < n + pps |
| `PdfProcessor.PageCountExamples` | lib/pdf-processor.ts:167-170 | 0 pages give 0 sheets; 1 page in 4-up gives 1; 5 pages in 2-up give 3; 8 pages in 4-up give 2 |
| `PdfProcessor.SheetStartsInRange` | lib/pdf-processor.ts:117-126 | every sheet index below the count starts at a source page that exists |
| `PdfProcessor.CombinePages` | lib/pdf-processor.ts:99-162 | the output equals `Composition`; it has `GetOutputPageCount` sheets, the same count as the standalone function; slot s of sheet k draws source page k·pps + s |
| `PdfProcessor.FillSheet` | lib/pdf-processor.ts:125-157 | the slot loop with its early `break` yields the sheet's specified draws: 1 to pps of them, slot s drawing source page k·pps + s |
| `PdfProcessor.SheetSpecLength` | lib/pdf-processor.ts:125-131 | a sheet holds at most pps draws, and fewer only when the source pages run out |
| `PdfProcessor.SheetSpecDraw` | lib/pdf-processor.ts:126-156 | slot s of sheet k draws source page k·pps + s, scaled and centred into cell s |
| `PdfProcessor.CompositionSources` | lib/pdf-processor.ts:125-126 | in the composed document, slot s of sheet k holds source page k·pps + s |
| `PdfProcessor.EachPageDrawnOnceInOrder` | lib/pdf-processor.ts:117-131 | reading all draws sheet by sheet gives exactly 0, 1, …, n−1: every source page is drawn once, in order, and nothing else is drawn |
| `PdfProcessor.DrawnSourcesSnoc` | lib/pdf-processor.ts:120-157 | the draws of one more sheet extend the sequence of drawn sources |
| `PdfProcessor.SheetSourcesRun` | lib/pdf-processor.ts:125-131 | sheet k draws the consecutive run k·pps … min(n, (k+1)·pps) − 1 |
| `PdfProcessor.CompositionShape` | lib/pdf-processor.ts:117-131 | every sheet is 792×612; every sheet but the last is full; the last holds 1 to pps pages; the trailing slots are empty |
| `PdfProcessor.DrawsInsideCells` | lib/pdf-processor.ts:133-156 | each draw has a positive size, lies inside the cell of its slot, and so lies inside the sheet; it keeps its source page's aspect ratio (w·ph = h·pw) |
| `PdfProcessor.PlaceInsideCell` | lib/pdf-processor.ts:137-156 | a single draw keeps the source's aspect ratio (w·ph = h·pw), has a positive size and stays inside its cell |
| `PdfProcessor.SheetDrawAt` | lib/pdf-processor.ts:126-156 | a draw that exists in slot s of sheet k is the scaled, centred page k·pps + s in cell s |
| `PdfProcessor.CompositionExamples` | lib/pdf-processor.ts:117-131 | 1 page in 4-up gives 1 sheet with 1 filled slot; 5 pages in 2-up give 3 sheets, the third holding only page 5; 8 pages in 4-up give 2 full sheets |
| `Text.EndsWithPdfByLetters` | components/UploadZone.tsx:20 | a name ends in ".pdf" in any letter case exactly when its last four characters are '.', p/P, d/D, f/F |
| `UploadZone.ValidateFile` | components/UploadZone.tsx:16-31 | None exactly when the file has the PDF MIME type or a ".pdf" name (any case) and is at most 20 MiB; the type message for a non-PDF, even an oversized one; the size message for an oversized PDF |
| `UploadZone.SizeLimitBoundary` | components/UploadZone.tsx:5-28 | the limit is 20971520 bytes: exactly 20 MiB is accepted, one byte more is refused |
| `UploadZone.EitherTestSuffices` | components/UploadZone.tsx:18-23 | the MIME type alone (with a ".txt" name) or the ".PDF" name alone (with any MIME type) admits a file |
| `UploadZone.HandleFile` | components/UploadZone.tsx:33-40 | exactly one callback: `onError` with the validation message when validation fails, else `onFileSelect` with the same file |
| `UploadZone.HandleFileList` | components/UploadZone.tsx:54-76 | a drop or input change does nothing for an empty list; otherwise exactly one callback, decided by validating the first file only: `onError` with its message when it fails, else `onFileSelect` with that file |
| `ProcessButton.BaseName` | components/ProcessButton.tsx:50 | a name ending in ".pdf" (any case) loses exactly those four characters; any other name is kept whole |
| `ProcessButton.OutputFileName` | components/ProcessButton.tsx:51 | the download name ends in ".pdf", and its base name is the original base name + "-" + layout + "-" + orientation |
| `ProcessButton.StripsAppendedExtension` | components/ProcessButton.tsx:50 | appending ".pdf", ".PDF", ".Pdf", … to a stem and taking the base name gives back the stem |
| `ProcessButton.StripsOnlyOneExtension` | components/ProcessButton.tsx:50 | "x.pdf.pdf" becomes "x.pdf": only one extension is removed |
| `ProcessButton.KeepsInnerExtension` | components/ProcessButton.tsx:50 | "a.pdf.txt" is kept whole: a ".pdf" that is not at the end is not removed |
| `ProcessButton.ExportButton.constructor` | components/ProcessButton.tsx:28-29 | not processing, no error, no download, no `onSuccess` call |
| `ProcessButton.ExportButton.Start` | components/ProcessButton.tsx:32-33 | on entry `processing` becomes true and `error` is cleared |
| `ProcessButton.ExportButton.HandleProcess` | components/ProcessButton.tsx:31-71 | always ends not processing; on success one download of the composed document under `OutputFileName`, no error and one `onSuccess` call; on failure the fixed message, no download and no `onSuccess` call |
| `PdfPreview.DecodeBytes` | components/PdfPreview.tsx:49-53 | a byte array as long as the binary string, byte i being character i's code stored into a `Uint8Array` (modulo 256) |
| `PdfPreview.DecodeKeepsCodes` | components/PdfPreview.tsx:49-53 | for a binary string as `atob` returns it, byte i equals the code of character i |
| `PdfPreview.ClassifyError` | components/PdfPreview.tsx:109-123 | the renderer message exactly when the message mentions "worker"/"Worker"; otherwise the invalid/password message exactly when it mentions "Invalid PDF" or "password"; otherwise the generic message |
| `PdfPreview.NonErrorGetsGenericMessage` | components/PdfPreview.tsx:109-122 | a thrown value that is not an `Error` is read as "Unknown error" and gets the generic message |
| `PdfPreview.WorkerMentionTakesPrecedence` | components/PdfPreview.tsx:111-116 | a message mentioning both "worker" and "password" gets the renderer message |
| `PdfPreview.RenderLoopOutcome` | components/PdfPreview.tsx:75-97 | the render loop succeeds exactly when every page 1..last passes its flag check and renders, and then yields the images of pages 1..last in order; it is abandoned exactly when the first page that does not go through has the flag set |
| `PdfPreview.RenderPages` | components/PdfPreview.tsx:72-97 | the loop's outcome is the specified one; on success it holds exactly `pagesToRender` images, image k being page k+1 |
| `PdfPreview.MoreNote` | components/PdfPreview.tsx:193-197 | the "+N more" note appears exactly when there are more than 3 output pages, with min(total, 3) + N = total |
| `PdfPreview.UncancelledRunSettles` | components/PdfPreview.tsx:44-125 | a run whose flag is never set ends with `loading` false, whatever fails |
| `PdfPreview.CancelledRunPublishesNothing` | components/PdfPreview.tsx:62-108 | a run cancelled at any point, whose flag stays set from then on (so it is set after the render loop and in the catch), leaves the previews unchanged, shows no error and keeps `loading` true |
| `PdfPreview.SuccessShowsLeadingSheets` | components/PdfPreview.tsx:68-102 | after a run that ends without error or spinner, `totalPages` is the full sheet count (not capped at 3), and the previews are sheets 1..min(total, 3) in order |
| `PdfPreview.PreviewController.constructor` | components/PdfPreview.tsx:28-31 | the initial state: no previews, loading, no error, 0 pages |
| `PdfPreview.PreviewController.GeneratePreview` | components/PdfPreview.tsx:43-127 | the new state is `PreviewRun` of the old one: loading set and error cleared on entry; each flag check abandons without publishing; `totalPages` is set before rendering; previews and `loading` false are published only if the flag is clear after the loop; a caught error is classified and published only if the flag is clear |

## Left out

- The document libraries (pdf-lib's `load`, `create`, `addPage`, `embedPages`, `drawPage`, `save`; pdf.js's `getDocument`, `getPage`, `render`, `cleanup`, `destroy`) are foreign code. Page sizes come in and draw operations go out. The preview's library results are parameters of a run.
- Per-page and per-document resource release (`page.cleanup()`, `pdf.destroy()`) has no effect on the modelled state and is not modelled.
- Browser APIs are not modelled: canvas, `toDataURL`, `atob` (its result is a parameter), `Blob`, `URL.createObjectURL`, and the DOM link click. A download is recorded as a name and a document.
- `console.error` logging is not modelled.
- Concurrency is not modelled. One preview run is sequential, with the flag given per check point. The shared flag is reset by each new effect and `setTotalPages` is not gated, so the code does not guarantee that a stale run never overwrites a newer one. The model does not claim it.
- IEEE-754 rounding is not modelled. With JavaScript numbers the tiling equalities hold only approximately.
- CalculateScale: requires a positive page size, and `PageSize` assumes every source page has one. The source does not check. A zero side divides by zero, giving Infinity, or NaN when both sides are zero. A negative side gives a negative scale and a draw that can leave its cell. These cases are not modelled.
- Non-ASCII case mapping of `toLowerCase` is not modelled. It cannot change the ".pdf" tests.
- The wording of the page-count and "+N more" texts, including their plural "s", is not modelled. `MoreNote` gives only N.
- The drag-highlight state (`isDragging`), the selectors, the header, the tip button, the layout, the Next.js and Tailwind configuration, and `formatFileSize` are UI or configuration.
- IndexedDB and `sessionStorage` persistence and page redirects (lib/pdf-storage.ts, app/page.tsx, app/editor/page.tsx) are not part of this model.
- The preview's Retry button re-runs `generatePreview`, which is the same `GeneratePreview` method.
