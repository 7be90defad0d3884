/**
 * The preview controller of components/PdfPreview.tsx: one run of
 * `generatePreview`, which decodes the stored document, composes it, renders
 * at most the first three sheets, and publishes the result unless the run
 * has been cancelled.
 *
 * The browser and the two document libraries are parameters of a run (an
 * `Environment`): what `atob` returns or throws, what loading the decoded
 * bytes gives, what the rasterizer does, and the value of the shared
 * cancellation flag at each point where the code reads it.
 */
module PdfPreview {
  import opened Wrappers
  import opened Text
  import opened PdfProcessor

  // ---------------------------------------------------------------------------
  // Decoding the stored document
  // ---------------------------------------------------------------------------

  newtype byte = x: int | 0 <= x < 256

  /** Storing a character code into a `Uint8Array` keeps it modulo 256. */
  function ToUint8(c: char): byte
  {
    ((c as int) % 256) as byte
  }

  /** The byte array that the copy loop produces from a binary string. */
  function DecodedBytes(binary: string): seq<byte>
  {
    seq(|binary|, i requires 0 <= i < |binary| => ToUint8(binary[i]))
  }

  /**
   * `new Uint8Array(binary.length)` filled by `bytes[i] = binary.charCodeAt(i)`.
   * One byte per character, in order.
   */
  method DecodeBytes(binary: string) returns (bytes: array<byte>)
    ensures bytes.Length == |binary|
    ensures forall i :: 0 <= i < |binary| ==> bytes[i] == ToUint8(binary[i])
    ensures bytes[..] == DecodedBytes(binary)
  {
    bytes := new byte[|binary|];
    var i := 0;
    while i < |binary|
      invariant 0 <= i <= |binary|
      invariant forall k :: 0 <= k < i ==> bytes[k] == ToUint8(binary[k])
    {
      bytes[i] := ToUint8(binary[i]);
      i := i + 1;
    }
  }

  /** A binary string (each code below 256, as `atob` returns) is copied code for code. */
  lemma DecodeKeepsCodes(binary: string)
    requires forall i :: 0 <= i < |binary| ==> binary[i] as int < 256
    ensures |DecodedBytes(binary)| == |binary|
    ensures forall i :: 0 <= i < |binary| ==> DecodedBytes(binary)[i] as int == binary[i] as int
  {
  }

  // ---------------------------------------------------------------------------
  // Error classification
  // ---------------------------------------------------------------------------

  const RendererMessage: string := "Failed to load PDF renderer. Please refresh the page."
  const InvalidMessage: string := "Invalid or password-protected PDF"
  const GenericMessage: string := "Failed to generate preview. Please try again."

  /** The message of an `Error`, and "Unknown error" for anything else that was thrown. */
  function ErrorMessageOf(err: Thrown): string
  {
    match err
    case ErrorObject(message) => message
    case OtherValue => "Unknown error"
  }

  predicate MentionsWorker(message: string)
  {
    Contains(message, "worker") || Contains(message, "Worker")
  }

  predicate MentionsInvalidOrPassword(message: string)
  {
    Contains(message, "Invalid PDF") || Contains(message, "password")
  }

  /**
   * The message shown for a failed run. The tests are tried in order: a
   * mention of the worker wins over a mention of an invalid or protected
   * document, and everything else gets the generic message.
   */
  function ClassifyError(err: Thrown): (shown: string)
    ensures var m := ErrorMessageOf(err);
      && (shown == RendererMessage <==> MentionsWorker(m))
      && (shown == InvalidMessage <==> !MentionsWorker(m) && MentionsInvalidOrPassword(m))
      && (shown == GenericMessage <==> !MentionsWorker(m) && !MentionsInvalidOrPassword(m))
  {
    var errorMessage := ErrorMessageOf(err);
    if Contains(errorMessage, "worker") || Contains(errorMessage, "Worker") then
      RendererMessage
    else if Contains(errorMessage, "Invalid PDF") || Contains(errorMessage, "password") then
      InvalidMessage
    else
      GenericMessage
  }

  /** A thrown value that is not an `Error` gets the generic message. */
  lemma NonErrorGetsGenericMessage()
    ensures ClassifyError(OtherValue) == GenericMessage
  {
    var m := "Unknown error";
    NotContainsWithoutFirstPair(m, "worker");
    NotContainsWithoutFirstChar(m, "Worker");
    NotContainsWithoutFirstChar(m, "Invalid PDF");
    NotContainsWithoutFirstChar(m, "password");
  }

  /** A worker failure that also mentions a password is still reported as a renderer failure. */
  lemma WorkerMentionTakesPrecedence(message: string)
    requires Contains(message, "worker") && Contains(message, "password")
    ensures ClassifyError(ErrorObject(message)) == RendererMessage
  {
  }

  // ---------------------------------------------------------------------------
  // The run
  // ---------------------------------------------------------------------------

  /** A rendered sheet, as the data URL of its canvas. */
  type Image = string

  /** The places where `generatePreview` reads the cancellation flag. */
  datatype CheckPoint = AfterCompose | BeforePage(page: nat) | AfterRender | InCatch

  /** The rasterizer's behaviour on the composed document. */
  datatype Rasterizer = Rasterizer(
    openFailure: Option<Thrown>,        // `getDocument(...).promise` rejects
    pageFailure: nat -> Option<Thrown>, // `getPage(i)` or `render` rejects for page i
    image: nat -> Image)                // the data URL of page i once rendered

  /** Everything outside the component that one run depends on. */
  datatype Environment = Environment(
    atob: string -> Result<string, Thrown>,
    load: seq<byte> -> Result<seq<PageSize>, Thrown>,
    raster: Rasterizer,
    abort: CheckPoint -> bool)

  /** Result of the render loop. */
  datatype RenderOutcome = Rendered(images: seq<Image>) | Abandoned | RenderFailed(err: Thrown)

  /** The render loop from page `i` to page `last` (1-based), with `done` the images made so far. */
  function RenderFrom(i: nat, last: nat, done: seq<Image>, raster: Rasterizer, abort: CheckPoint -> bool): RenderOutcome
    decreases last + 1 - i
  {
    if i > last then Rendered(done)
    else if abort(BeforePage(i)) then Abandoned
    else match raster.pageFailure(i)
      case Some(err) => RenderFailed(err)
      case None => RenderFrom(i + 1, last, done + [raster.image(i)], raster, abort)
  }

  /** Page `i` passes its check point and renders. */
  predicate PageGoesThrough(i: nat, raster: Rasterizer, abort: CheckPoint -> bool)
  {
    !abort(BeforePage(i)) && raster.pageFailure(i).None?
  }

  /**
   * The render loop succeeds exactly when every page from 1 to `last` passes
   * its check and renders; then the images are those of pages 1..last in
   * that order. Otherwise the first page that does not go through decides:
   * a set flag abandons the run, a failure is thrown on.
   */
  lemma {:induction false} RenderLoopOutcome(i: nat, last: nat, done: seq<Image>, raster: Rasterizer, abort: CheckPoint -> bool)
    requires 1 <= i <= last + 1
    ensures var r := RenderFrom(i, last, done, raster, abort);
      && (r.Rendered? <==> forall j :: i <= j <= last ==> PageGoesThrough(j, raster, abort))
      && (r.Rendered? ==> r.images == done + seq(last + 1 - i, k requires 0 <= k => raster.image(i + k)))
      && (r.Abandoned? <==> exists j :: i <= j <= last && abort(BeforePage(j))
                              && forall q :: i <= q < j ==> PageGoesThrough(q, raster, abort))
    decreases last + 1 - i
  {
    if i <= last {
      if abort(BeforePage(i)) {
        assert !PageGoesThrough(i, raster, abort);
      } else if raster.pageFailure(i).Some? {
        assert !PageGoesThrough(i, raster, abort);
      } else {
        var more := done + [raster.image(i)];
        RenderLoopOutcome(i + 1, last, more, raster, abort);
        var r := RenderFrom(i + 1, last, more, raster, abort);
        assert RenderFrom(i, last, done, raster, abort) == r;
        if r.Rendered? {
          assert more + seq(last - i, k requires 0 <= k => raster.image(i + 1 + k))
              == done + seq(last + 1 - i, k requires 0 <= k => raster.image(i + k));
        }
        if r.Abandoned? {
          var j :| i + 1 <= j <= last && abort(BeforePage(j))
                   && forall q :: i + 1 <= q < j ==> PageGoesThrough(q, raster, abort);
          assert forall q :: i <= q < j ==> PageGoesThrough(q, raster, abort);
        }
      }
    }
  }

  /** The render loop of `generatePreview`, pages 1 to `pagesToRender`. */
  method RenderPages(pagesToRender: nat, raster: Rasterizer, abort: CheckPoint -> bool) returns (outcome: RenderOutcome)
    ensures outcome == RenderFrom(1, pagesToRender, [], raster, abort)
    ensures outcome.Rendered? ==>
      |outcome.images| == pagesToRender
      && forall k :: 0 <= k < pagesToRender ==> outcome.images[k] == raster.image(k + 1)
  {
    var pageImages: seq<Image> := [];
    var i := 1;
    while i <= pagesToRender
      invariant 1 <= i <= pagesToRender + 1
      invariant RenderFrom(i, pagesToRender, pageImages, raster, abort) == RenderFrom(1, pagesToRender, [], raster, abort)
      invariant |pageImages| == i - 1
      invariant forall k :: 0 <= k < i - 1 ==> pageImages[k] == raster.image(k + 1)
    {
      if abort(BeforePage(i)) {
        return Abandoned;
      }
      match raster.pageFailure(i) {
        case Some(err) =>
          return RenderFailed(err);
        case None =>
      }
      pageImages := pageImages + [raster.image(i)];
      i := i + 1;
    }
    outcome := Rendered(pageImages);
  }

  /** What the component shows: its four state variables. */
  datatype View = View(previews: seq<Image>, loading: bool, error: Option<string>, totalPages: nat)

  /** The `catch` block: publish the classified message unless the run was cancelled. */
  function Caught(v: View, err: Thrown, abort: CheckPoint -> bool): View
  {
    if abort(InCatch) then v else v.(error := Some(ClassifyError(err)), loading := false)
  }

  /** The view after one run of `generatePreview` that started from `v`. */
  function PreviewRun(v: View, pdfData: string, layout: Layout, spacing: Spacing, env: Environment): View
  {
    var started := v.(loading := true, error := None);
    match env.atob(pdfData)
    case Err(err) => Caught(started, err, env.abort)
    case Ok(binary) =>
      match env.load(DecodedBytes(binary))
      case Err(err) => Caught(started, err, env.abort)
      case Ok(pages) =>
        if env.abort(AfterCompose) then started
        else match env.raster.openFailure
          case Some(err) => Caught(started, err, env.abort)
          case None =>
            var numPages := |Composition(pages, layout, spacing)|;
            var counted := started.(totalPages := numPages);
            match RenderFrom(1, Min(numPages, 3), [], env.raster, env.abort)
            case Abandoned => counted
            case RenderFailed(err) => Caught(counted, err, env.abort)
            case Rendered(images) =>
              if env.abort(AfterRender) then counted else counted.(previews := images, loading := false)
  }

  /** The "+N more" note under the previews: shown only past three sheets, N being the rest. */
  function MoreNote(totalPages: nat): (more: Option<nat>)
    ensures more.Some? <==> totalPages > 3
    ensures more.Some? ==> more.value > 0 && Min(totalPages, 3) + more.value == totalPages
  {
    if totalPages > 3 then Some(totalPages - 3) else None
  }

  /** A run that is never cancelled always ends with the spinner gone. */
  lemma UncancelledRunSettles(v: View, pdfData: string, layout: Layout, spacing: Spacing, env: Environment)
    requires forall c :: !env.abort(c)
    ensures !PreviewRun(v, pdfData, layout, spacing, env).loading
  {
    match env.atob(pdfData)
    case Err(_) =>
    case Ok(binary) =>
      match env.load(DecodedBytes(binary))
      case Err(_) =>
      case Ok(pages) =>
        var numPages := |Composition(pages, layout, spacing)|;
        RenderLoopOutcome(1, Min(numPages, 3), [], env.raster, env.abort);
  }

  /**
   * A run cancelled at any point (the component was torn down or its inputs
   * changed, and the flag stays set from then on, so it is set at the last
   * two check points) publishes nothing: the previews are the old ones, no
   * error is shown, and the spinner stays. This covers a flag set before
   * composing, between two pages, or while the last page renders.
   */
  lemma CancelledRunPublishesNothing(v: View, pdfData: string, layout: Layout, spacing: Spacing, env: Environment)
    requires env.abort(AfterRender) && env.abort(InCatch)
    ensures var w := PreviewRun(v, pdfData, layout, spacing, env);
      w.previews == v.previews && w.error == None && w.loading
  {
  }

  /**
   * After a run that ends without error and without the spinner, the count
   * shown is the full number of output sheets, not capped at three, and the
   * previews are sheets 1, 2, ... up to three of them, in order.
   */
  lemma SuccessShowsLeadingSheets(v: View, pdfData: string, layout: Layout, spacing: Spacing, env: Environment,
                                  binary: string, pages: seq<PageSize>)
    requires env.atob(pdfData) == Ok(binary) && env.load(DecodedBytes(binary)) == Ok(pages)
    ensures var w := PreviewRun(v, pdfData, layout, spacing, env);
      !w.loading && w.error == None ==>
        && w.totalPages == GetOutputPageCount(|pages|, layout)
        && |w.previews| == Min(w.totalPages, 3)
        && forall k :: 0 <= k < |w.previews| ==> w.previews[k] == env.raster.image(k + 1)
  {
    var numPages := |Composition(pages, layout, spacing)|;
    RenderLoopOutcome(1, Min(numPages, 3), [], env.raster, env.abort);
  }

  /** The component: its state variables, as `useState` initialises them. */
  class PreviewController {
    var previews: seq<Image>
    var loading: bool
    var error: Option<string>
    var totalPages: nat

    function Snapshot(): View
      reads this
    {
      View(previews, loading, error, totalPages)
    }

    constructor ()
      ensures Snapshot() == View([], true, None, 0)
    {
      previews := [];
      loading := true;
      error := None;
      totalPages := 0;
    }

    /**
     * One run of `generatePreview` for the given document and options. The
     * new state is `PreviewRun` of the old one; the lemmas above say what
     * that means.
     */
    method GeneratePreview(pdfData: string, layout: Layout, spacing: Spacing, env: Environment)
      modifies this
      ensures Snapshot() == PreviewRun(old(Snapshot()), pdfData, layout, spacing, env)
    {
      loading := true;
      error := None;
      var thrown: Option<Thrown> := None;
      match env.atob(pdfData) {
        case Err(err) =>
          thrown := Some(err);
        case Ok(binaryString) =>
          var bytes := DecodeBytes(binaryString);
          match env.load(bytes[..]) {
            case Err(err) =>
              thrown := Some(err);
            case Ok(pages) =>
              var processed := CombinePages(pages, layout, spacing);
              if env.abort(AfterCompose) {
                return;
              }
              match env.raster.openFailure {
                case Some(err) =>
                  thrown := Some(err);
                case None =>
                  var numPages := |processed|;
                  totalPages := numPages;
                  var pagesToRender := Min(numPages, 3);
                  var outcome := RenderPages(pagesToRender, env.raster, env.abort);
                  match outcome {
                    case Abandoned =>
                      return;
                    case RenderFailed(err) =>
                      thrown := Some(err);
                    case Rendered(pageImages) =>
                      if !env.abort(AfterRender) {
                        previews := pageImages;
                        loading := false;
                      }
                  }
              }
          }
      }
      if thrown.Some? && !env.abort(InCatch) {
        error := Some(ClassifyError(thrown.value));
        loading := false;
      }
    }
  }
}
