/**
 * The imposition engine of lib/pdf-processor.ts: where each source page lands
 * on a landscape Letter sheet, how it is scaled into its cell, and how source
 * pages are grouped onto sheets.
 *
 * Coordinates are exact reals (PDF points, origin bottom-left, y upward).
 * The document library is abstracted: a source document is the sequence of
 * its page sizes, and an output document is the sequence of its sheets, each
 * with the draw operations performed on it, in order.
 */
module PdfProcessor {

  // ---------------------------------------------------------------------------
  // Options and constants
  // ---------------------------------------------------------------------------

  datatype Layout = TwoUp | FourUp

  datatype Spacing = Snug | Regular | Spacious

  /**
   * Callers also hold an orientation choice. The processing options carry only
   * a layout and a spacing, so the orientation changes nothing here; of the
   * outputs, it changes only the download name.
   */
  datatype Orientation = Landscape | Portrait

  /** Letter size in points, 8.5 by 11 inches. */
  const LetterWidth: real := 612.0
  const LetterHeight: real := 792.0

  /** Every output sheet is Letter turned to landscape. */
  const SheetWidth: real := LetterHeight
  const SheetHeight: real := LetterWidth

  /** Margin as a fraction of the sheet dimension, per spacing preset. */
  function MarginFraction(spacing: Spacing): real
  {
    match spacing
    case Snug => 0.02
    case Regular => 0.05
    case Spacious => 0.10
  }

  function PagesPerSheet(layout: Layout): nat
  {
    if layout == TwoUp then 2 else 4
  }

  function MarginX(spacing: Spacing): real { SheetWidth * MarginFraction(spacing) }

  function MarginY(spacing: Spacing): real { SheetHeight * MarginFraction(spacing) }

  /** The gap between neighbouring cells, never wider than either margin. */
  function Gap(spacing: Spacing): real
  {
    if MarginX(spacing) <= MarginY(spacing) then MarginX(spacing) else MarginY(spacing)
  }

  // ---------------------------------------------------------------------------
  // Placement calculator
  // ---------------------------------------------------------------------------

  /** A cell on the sheet: lower-left corner and size. */
  datatype Placement = Placement(x: real, y: real, width: real, height: real)

  predicate InsideSheet(p: Placement)
  {
    0.0 <= p.x && p.x + p.width <= SheetWidth && 0.0 <= p.y && p.y + p.height <= SheetHeight
  }

  /** The two rectangles share no interior point. */
  predicate Disjoint(p: Placement, q: Placement)
  {
    p.x + p.width <= q.x || q.x + q.width <= p.x || p.y + p.height <= q.y || q.y + q.height <= p.y
  }

  /** `p` comes before `q` in reading order: higher row first, then left to right. */
  predicate ReadsBefore(p: Placement, q: Placement)
  {
    p.y > q.y || (p.y == q.y && p.x < q.x)
  }

  /** The cells of one sheet, one per slot, in slot order. */
  function CalculatePlacements(layout: Layout, spacing: Spacing): (r: seq<Placement>)
    ensures |r| == PagesPerSheet(layout)
    ensures forall i :: 0 <= i < |r| ==> r[i].width == r[0].width && r[i].height == r[0].height
    ensures forall i :: 0 <= i < |r| ==> r[i].width > 0.0 && r[i].height > 0.0 && InsideSheet(r[i])
    ensures forall i, j :: 0 <= i < j < |r| ==> Disjoint(r[i], r[j]) && ReadsBefore(r[i], r[j])
  {
    var marginX := MarginX(spacing);
    var marginY := MarginY(spacing);
    var gap := Gap(spacing);
    if layout == TwoUp then
      // two cells side by side, full available height
      var cellWidth := (SheetWidth - marginX * 2.0 - gap) / 2.0;
      var cellHeight := SheetHeight - marginY * 2.0;
      [ Placement(marginX, marginY, cellWidth, cellHeight),
        Placement(marginX + cellWidth + gap, marginY, cellWidth, cellHeight) ]
    else
      // 2x2 grid: top row left to right, then bottom row left to right
      var cellWidth := (SheetWidth - marginX * 2.0 - gap) / 2.0;
      var cellHeight := (SheetHeight - marginY * 2.0 - gap) / 2.0;
      [ Placement(marginX, marginY + cellHeight + gap, cellWidth, cellHeight),
        Placement(marginX + cellWidth + gap, marginY + cellHeight + gap, cellWidth, cellHeight),
        Placement(marginX, marginY, cellWidth, cellHeight),
        Placement(marginX + cellWidth + gap, marginY, cellWidth, cellHeight) ]
  }

  /** The margins are the preset fraction of each sheet dimension and the gap is the smaller margin. */
  lemma MarginsAndGap(spacing: Spacing)
    ensures MarginX(spacing) == 792.0 * MarginFraction(spacing)
    ensures MarginY(spacing) == 612.0 * MarginFraction(spacing)
    ensures MarginFraction(spacing) in {0.02, 0.05, 0.10}
    ensures Gap(spacing) == MarginY(spacing) <= MarginX(spacing)
  {
  }

  /**
   * The cells, margins and gaps add up exactly to the sheet: across, a margin,
   * a cell, the gap, a cell and a margin; up, a margin, one cell (2-up) or a
   * cell, the gap and a cell (4-up), and a margin.
   */
  lemma PlacementsTileSheet(layout: Layout, spacing: Spacing)
    ensures var r := CalculatePlacements(layout, spacing);
      var w, h := r[0].width, r[0].height;
      var mx, my, gap := MarginX(spacing), MarginY(spacing), Gap(spacing);
      && r[0].x == mx && r[1].x == mx + w + gap && r[1].x + w + mx == SheetWidth
      && mx + w + gap + w + mx == SheetWidth
      && r[|r| - 1].y == my
      && (layout == TwoUp ==> r[0].y == my && my + h + my == SheetHeight)
      && (layout == FourUp ==>
            r[2].x == mx && r[3].x == r[1].x
            && r[0].y == r[1].y == my + h + gap && r[2].y == my
            && r[0].y + h + my == SheetHeight
            && my + h + gap + h + my == SheetHeight)
  {
  }

  // ---------------------------------------------------------------------------
  // Fit scaler
  // ---------------------------------------------------------------------------

  /** A uniform scale and the offsets that centre the scaled page in its cell. */
  datatype FitTransform = FitTransform(scale: real, offsetX: real, offsetY: real)

  /** Does scaling a `pw` by `ph` page by `s` keep it within a `tw` by `th` cell? */
  predicate Fits(pw: real, ph: real, tw: real, th: real, s: real)
  {
    pw * s <= tw && ph * s <= th
  }

  /**
   * Scale a page to fit inside the cell keeping its aspect ratio, and centre it.
   * The scale fits, fills the cell on at least one axis, and the two offsets
   * split the leftover space evenly.
   */
  function CalculateScale(pw: real, ph: real, tw: real, th: real): (f: FitTransform)
    requires pw > 0.0 && ph > 0.0
    ensures Fits(pw, ph, tw, th, f.scale)
    ensures pw * f.scale == tw || ph * f.scale == th
    ensures 2.0 * f.offsetX + pw * f.scale == tw && 2.0 * f.offsetY + ph * f.scale == th
    ensures tw >= 0.0 && th >= 0.0 ==> f.offsetX >= 0.0 && f.offsetY >= 0.0
    ensures tw > 0.0 && th > 0.0 ==> f.scale > 0.0
  {
    var scaleX := tw / pw;
    var scaleY := th / ph;
    var scale := if scaleX <= scaleY then scaleX else scaleY;
    assert pw * scaleX == tw && ph * scaleY == th;
    ScaleBelow(pw, scale, scaleX);
    ScaleBelow(ph, scale, scaleY);
    var scaledWidth := pw * scale;
    var scaledHeight := ph * scale;
    FitTransform(scale, (tw - scaledWidth) / 2.0, (th - scaledHeight) / 2.0)
  }

  /** Multiplying by a positive factor keeps the order. */
  lemma ScaleBelow(p: real, s: real, t: real)
    requires p > 0.0 && s <= t
    ensures p * s <= p * t
  {
    assert p * t - p * s == p * (t - s);
  }

  /** No uniform scale larger than the computed one fits: the page is as large as it can be. */
  lemma FitIsLargest(pw: real, ph: real, tw: real, th: real, s: real)
    requires pw > 0.0 && ph > 0.0
    requires Fits(pw, ph, tw, th, s)
    ensures s <= CalculateScale(pw, ph, tw, th).scale
  {
    var f := CalculateScale(pw, ph, tw, th);
    if pw * f.scale == tw {
      if s > f.scale { ScaleStrictlyAbove(pw, f.scale, s); }
    } else {
      if s > f.scale { ScaleStrictlyAbove(ph, f.scale, s); }
    }
  }

  lemma ScaleStrictlyAbove(p: real, s: real, t: real)
    requires p > 0.0 && s < t
    ensures p * s < p * t
  {
    assert p * t - p * s == p * (t - s);
  }

  /** A drawn page centred in a cell of non-negative size lies inside that cell. */
  lemma CentredPageInsideCell(pw: real, ph: real, cell: Placement)
    requires pw > 0.0 && ph > 0.0 && cell.width >= 0.0 && cell.height >= 0.0
    ensures var f := CalculateScale(pw, ph, cell.width, cell.height);
      && cell.x <= cell.x + f.offsetX
      && cell.x + f.offsetX + pw * f.scale <= cell.x + cell.width
      && cell.y <= cell.y + f.offsetY
      && cell.y + f.offsetY + ph * f.scale <= cell.y + cell.height
  {
  }

  // ---------------------------------------------------------------------------
  // Composition pipeline
  // ---------------------------------------------------------------------------

  /** Size of a source page, assumed positive; the source does not check the sizes it reads. */
  datatype Size = Size(width: real, height: real)
  type PageSize = s: Size | s.width > 0.0 && s.height > 0.0 witness Size(1.0, 1.0)

  /** One `drawPage` call: which source page, where, and at what size. */
  datatype DrawOp = DrawOp(source: nat, x: real, y: real, width: real, height: real)

  /** One output sheet with the draw operations made on it, in order. */
  datatype Sheet = Sheet(width: real, height: real, draws: seq<DrawOp>)

  /** Number of sheets for `sourcePages` source pages: the ceiling of `sourcePages / PagesPerSheet(layout)`. */
  function GetOutputPageCount(sourcePages: nat, layout: Layout): (count: nat)
    ensures sourcePages <= count * PagesPerSheet(layout) < sourcePages + PagesPerSheet(layout)
  {
    var pagesPerSheet := PagesPerSheet(layout);
    var count := (sourcePages + pagesPerSheet - 1) / pagesPerSheet;
    assert sourcePages + pagesPerSheet - 1 == count * pagesPerSheet + (sourcePages + pagesPerSheet - 1) % pagesPerSheet;
    count
  }

  /** Every sheet index below the count starts at a page that exists. */
  lemma SheetStartsInRange(k: nat, n: nat, layout: Layout)
    requires k < GetOutputPageCount(n, layout)
    ensures k * PagesPerSheet(layout) < n
  {
    var count := GetOutputPageCount(n, layout);
    if layout == TwoUp {
      assert k * 2 <= (count - 1) * 2;
    } else {
      assert k * 4 <= (count - 1) * 4;
    }
  }

  /**
   * The draw operation for source page `index` placed in `cell`: the page is
   * fitted to the cell by `CalculateScale` and drawn at the cell's corner
   * shifted by the centring offsets.
   */
  function Place(page: PageSize, cell: Placement, index: nat): DrawOp
  {
    var f := CalculateScale(page.width, page.height, cell.width, cell.height);
    DrawOp(index, cell.x + f.offsetX, cell.y + f.offsetY, page.width * f.scale, page.height * f.scale)
  }

  function Min(a: int, b: int): int { if a <= b then a else b }

  /** Number of filled slots on sheet `k`: the pages left, at most one sheet's worth. */
  function Filled(n: nat, layout: Layout, k: nat): nat
    requires k * PagesPerSheet(layout) < n
  {
    Min(n - k * PagesPerSheet(layout), PagesPerSheet(layout))
  }

  /** Sheet `k` of the composition: source pages k*pps onward, in slot order, until they run out. */
  function SheetSpec(pages: seq<PageSize>, layout: Layout, spacing: Spacing, k: nat): Sheet
    requires k * PagesPerSheet(layout) < |pages|
  {
    var pps := PagesPerSheet(layout);
    var cells := CalculatePlacements(layout, spacing);
    var filled := Filled(|pages|, layout, k);
    Sheet(SheetWidth, SheetHeight,
          seq(filled, s requires 0 <= s < filled => Place(pages[k * pps + s], cells[s], k * pps + s)))
  }

  /** A sheet holds one draw per remaining source page, at most one sheet's worth. */
  lemma SheetSpecLength(pages: seq<PageSize>, layout: Layout, spacing: Spacing, k: nat)
    requires k * PagesPerSheet(layout) < |pages|
    ensures var n := |SheetSpec(pages, layout, spacing, k).draws|;
      n <= PagesPerSheet(layout) && k * PagesPerSheet(layout) + n <= |pages|
      && (n < PagesPerSheet(layout) ==> k * PagesPerSheet(layout) + n == |pages|)
  {
  }

  /** Slot `s` of a sheet draws the source page `k * pps + s` into cell `s`. */
  lemma SheetSpecDraw(pages: seq<PageSize>, layout: Layout, spacing: Spacing, k: nat, s: nat)
    requires s < PagesPerSheet(layout) && k * PagesPerSheet(layout) + s < |pages|
    ensures k * PagesPerSheet(layout) < |pages|
    ensures var draws := SheetSpec(pages, layout, spacing, k).draws;
      s < |draws|
      && draws[s] == Place(pages[k * PagesPerSheet(layout) + s], CalculatePlacements(layout, spacing)[s],
                           k * PagesPerSheet(layout) + s)
  {
  }

  /** The whole output document as a value. */
  function Composition(pages: seq<PageSize>, layout: Layout, spacing: Spacing): seq<Sheet>
  {
    var count := GetOutputPageCount(|pages|, layout);
    seq(count, k requires 0 <= k < count =>
      SheetStartsInRange(k, |pages|, layout);
      SheetSpec(pages, layout, spacing, k))
  }

  /**
   * Builds the output document sheet by sheet: for each sheet, add a blank
   * landscape page, then fill its slots with source pages `sheet * pps + slot`
   * until the source pages run out.
   */
  method CombinePages(pages: seq<PageSize>, layout: Layout, spacing: Spacing) returns (sheets: seq<Sheet>)
    ensures sheets == Composition(pages, layout, spacing)
    ensures |sheets| == GetOutputPageCount(|pages|, layout)
    ensures forall k, s :: 0 <= k < |sheets| && 0 <= s < |sheets[k].draws| ==>
      sheets[k].draws[s].source == k * PagesPerSheet(layout) + s
  {
    var pagesPerSheet := if layout == TwoUp then 2 else 4;
    var totalPages := |pages|;
    var outputPageCount := (totalPages + pagesPerSheet - 1) / pagesPerSheet;
    assert outputPageCount == GetOutputPageCount(totalPages, layout);
    var placements := CalculatePlacements(layout, spacing);
    ghost var spec := Composition(pages, layout, spacing);
    sheets := [];
    var outputPageIndex := 0;
    while outputPageIndex < outputPageCount
      invariant 0 <= outputPageIndex <= outputPageCount == |spec|
      invariant sheets == spec[..outputPageIndex]
    {
      SheetStartsInRange(outputPageIndex, totalPages, layout);
      var draws := FillSheet(pages, layout, spacing, placements, outputPageIndex);
      assert spec[..outputPageIndex + 1] == spec[..outputPageIndex] + [spec[outputPageIndex]];
      sheets := sheets + [Sheet(SheetWidth, SheetHeight, draws)];
      outputPageIndex := outputPageIndex + 1;
    }
    assert sheets == spec;
    CompositionSources(pages, layout, spacing);
  }

  /**
   * The slot loop of one sheet: for each slot, the source page
   * `outputPageIndex * pps + slot` is scaled into the slot's cell, until the
   * source pages run out.
   */
  method FillSheet(pages: seq<PageSize>, layout: Layout, spacing: Spacing, placements: seq<Placement>,
                   outputPageIndex: nat) returns (draws: seq<DrawOp>)
    requires placements == CalculatePlacements(layout, spacing)
    requires outputPageIndex * PagesPerSheet(layout) < |pages|
    ensures draws == SheetSpec(pages, layout, spacing, outputPageIndex).draws
    ensures 1 <= |draws| <= PagesPerSheet(layout)
    ensures forall s :: 0 <= s < |draws| ==> draws[s].source == outputPageIndex * PagesPerSheet(layout) + s
  {
    var pagesPerSheet := if layout == TwoUp then 2 else 4;
    var totalPages := |pages|;
    ghost var target := SheetSpec(pages, layout, spacing, outputPageIndex).draws;
    var first := outputPageIndex * pagesPerSheet;
    assert first == outputPageIndex * PagesPerSheet(layout);
    SheetSpecLength(pages, layout, spacing, outputPageIndex);
    draws := [];
    var slotIndex := 0;
    while slotIndex < pagesPerSheet
      invariant 0 <= slotIndex <= pagesPerSheet
      invariant first + slotIndex <= totalPages
      invariant draws == target[..slotIndex]
    {
      var sourcePageIndex := first + slotIndex;
      if sourcePageIndex >= totalPages {
        break;
      }
      var op := Place(pages[sourcePageIndex], placements[slotIndex], sourcePageIndex);
      SheetSpecDraw(pages, layout, spacing, outputPageIndex, slotIndex);
      assert target[slotIndex] == op;
      assert target[..slotIndex + 1] == target[..slotIndex] + [op];
      draws := draws + [op];
      slotIndex := slotIndex + 1;
    }
    assert draws == target;
    forall s | 0 <= s < |draws| ensures draws[s].source == first + s {
      SheetSpecDraw(pages, layout, spacing, outputPageIndex, s);
    }
  }

  /** Slot `s` of sheet `k` holds source page `k * pps + s`. */
  lemma CompositionSources(pages: seq<PageSize>, layout: Layout, spacing: Spacing)
    ensures var sheets := Composition(pages, layout, spacing);
      forall k, s :: 0 <= k < |sheets| && 0 <= s < |sheets[k].draws| ==>
        sheets[k].draws[s].source == k * PagesPerSheet(layout) + s
  {
    var sheets := Composition(pages, layout, spacing);
    forall k, s | 0 <= k < |sheets| && 0 <= s < |sheets[k].draws|
      ensures sheets[k].draws[s].source == k * PagesPerSheet(layout) + s
    {
      SheetDrawAt(pages, layout, spacing, k, s);
    }
  }

  // ---------------------------------------------------------------------------
  // Properties of the composition
  // ---------------------------------------------------------------------------

  /** Source indices drawn on the given sheets, sheet by sheet, slot by slot. */
  function DrawnSources(sheets: seq<Sheet>): seq<nat>
  {
    if sheets == [] then []
    else DrawnSources(sheets[..|sheets| - 1]) + SheetSources(sheets[|sheets| - 1])
  }

  function SheetSources(sheet: Sheet): seq<nat>
  {
    seq(|sheet.draws|, s requires 0 <= s < |sheet.draws| => sheet.draws[s].source)
  }

  /**
   * Every source page is drawn exactly once, in order: reading the draw
   * operations of all sheets in sequence gives 0, 1, ..., n-1.
   */
  lemma {:induction false} EachPageDrawnOnceInOrder(pages: seq<PageSize>, layout: Layout, spacing: Spacing)
    ensures DrawnSources(Composition(pages, layout, spacing)) == seq(|pages|, i => i)
  {
    var sheets := Composition(pages, layout, spacing);
    var pps := PagesPerSheet(layout);
    var k := 0;
    while k < |sheets|
      invariant 0 <= k <= |sheets|
      invariant DrawnSources(sheets[..k]) == seq(Min(k * pps, |pages|), i => i)
    {
      DrawnSourcesSnoc(sheets, k);
      SheetSourcesRun(pages, layout, spacing, k);
      assert (k + 1) * pps == k * pps + pps;
      RangeConcat(k * pps, Min((k + 1) * pps, |pages|));
      k := k + 1;
    }
    assert sheets[..|sheets|] == sheets;
  }

  /** The sources of a prefix one sheet longer are those of the prefix followed by that sheet's. */
  lemma DrawnSourcesSnoc(sheets: seq<Sheet>, k: nat)
    requires k < |sheets|
    ensures DrawnSources(sheets[..k + 1]) == DrawnSources(sheets[..k]) + SheetSources(sheets[k])
  {
    assert sheets[..k + 1][..k] == sheets[..k];
  }

  /** Sheet `k` draws the consecutive source pages k*pps, k*pps+1, ... up to its fill. */
  lemma SheetSourcesRun(pages: seq<PageSize>, layout: Layout, spacing: Spacing, k: nat)
    requires k < |Composition(pages, layout, spacing)|
    ensures k * PagesPerSheet(layout) < |pages|
    ensures var pps := PagesPerSheet(layout);
      SheetSources(Composition(pages, layout, spacing)[k])
        == seq(Min((k + 1) * pps, |pages|) - k * pps, s => k * pps + s)
  {
    SheetStartsInRange(k, |pages|, layout);
    var pps := PagesPerSheet(layout);
    assert (k + 1) * pps == k * pps + pps;
  }

  lemma RangeConcat(a: nat, b: nat)
    requires a <= b
    ensures seq(a, i => i) + seq(b - a, s => a + s) == seq(b, i => i)
  {
  }

  /**
   * Every sheet is a 792 by 612 page; every sheet but the last is full; the
   * last holds between one and `pps` pages, its trailing slots left empty.
   */
  lemma CompositionShape(pages: seq<PageSize>, layout: Layout, spacing: Spacing)
    ensures var sheets := Composition(pages, layout, spacing);
      var pps := PagesPerSheet(layout);
      && (forall k :: 0 <= k < |sheets| ==> sheets[k].width == 792.0 && sheets[k].height == 612.0)
      && (forall k :: 0 <= k < |sheets| - 1 ==> |sheets[k].draws| == pps)
      && (|sheets| > 0 ==>
            1 <= |sheets[|sheets| - 1].draws| <= pps
            && (|sheets| - 1) * pps + |sheets[|sheets| - 1].draws| == |pages|)
  {
    var sheets := Composition(pages, layout, spacing);
    var pps := PagesPerSheet(layout);
    forall k | 0 <= k < |sheets| - 1 ensures |sheets[k].draws| == pps {
      SheetStartsInRange(k + 1, |pages|, layout);
      assert (k + 1) * pps == k * pps + pps;
    }
  }

  /** The drawn size has the page's width-to-height ratio. */
  predicate KeepsAspect(d: DrawOp, page: PageSize)
  {
    d.width * page.height == d.height * page.width
  }

  /**
   * Every drawn page has a positive size, lies inside the cell of its slot,
   * and so inside the sheet, and keeps its source's aspect ratio (a single
   * scale on both axes).
   */
  lemma DrawsInsideCells(pages: seq<PageSize>, layout: Layout, spacing: Spacing, k: nat, s: nat)
    requires k < |Composition(pages, layout, spacing)|
    requires s < |Composition(pages, layout, spacing)[k].draws|
    ensures var d := Composition(pages, layout, spacing)[k].draws[s];
      d.source < |pages| && d.width > 0.0 && d.height > 0.0
    ensures var d := Composition(pages, layout, spacing)[k].draws[s];
      var cell := CalculatePlacements(layout, spacing)[s];
      && cell.x <= d.x && d.x + d.width <= cell.x + cell.width
      && cell.y <= d.y && d.y + d.height <= cell.y + cell.height
    ensures var d := Composition(pages, layout, spacing)[k].draws[s];
      InsideSheet(Placement(d.x, d.y, d.width, d.height))
    ensures var d := Composition(pages, layout, spacing)[k].draws[s];
      KeepsAspect(d, pages[d.source])
  {
    var pps := PagesPerSheet(layout);
    SheetDrawAt(pages, layout, spacing, k, s);
    var cells := CalculatePlacements(layout, spacing);
    var cell := cells[s];
    var index := k * pps + s;
    var d := Composition(pages, layout, spacing)[k].draws[s];
    assert d == Place(pages[index], cell, index);
    PlaceInsideCell(pages[index], cell, index);
    assert d.source == index;
    assert InsideSheet(cell);
  }

  /** The draw operation for one page keeps its aspect ratio and stays inside its cell. */
  lemma PlaceInsideCell(page: PageSize, cell: Placement, index: nat)
    requires cell.width > 0.0 && cell.height > 0.0
    ensures var d := Place(page, cell, index);
      && d.source == index
      && d.width > 0.0 && d.height > 0.0 && KeepsAspect(d, page)
      && cell.x <= d.x && d.x + d.width <= cell.x + cell.width
      && cell.y <= d.y && d.y + d.height <= cell.y + cell.height
  {
    var f := CalculateScale(page.width, page.height, cell.width, cell.height);
    CentredPageInsideCell(page.width, page.height, cell);
    ScaleStrictlyAbove(page.width, 0.0, f.scale);
    ScaleStrictlyAbove(page.height, 0.0, f.scale);
    assert (page.width * f.scale) * page.height == (page.height * f.scale) * page.width;
  }

  /** Slot `s` of sheet `k` draws source page k*pps + s into cell `s`, when that page exists. */
  lemma SheetDrawAt(pages: seq<PageSize>, layout: Layout, spacing: Spacing, k: nat, s: nat)
    requires k < |Composition(pages, layout, spacing)|
    requires s < |Composition(pages, layout, spacing)[k].draws|
    ensures s < PagesPerSheet(layout) && k * PagesPerSheet(layout) + s < |pages|
    ensures Composition(pages, layout, spacing)[k].draws[s]
         == Place(pages[k * PagesPerSheet(layout) + s], CalculatePlacements(layout, spacing)[s],
                  k * PagesPerSheet(layout) + s)
  {
    SheetStartsInRange(k, |pages|, layout);
  }

  /** Sheet counts for 0, 1, 5 and 8 source pages. */
  lemma PageCountExamples(n: nat)
    ensures n == 0 ==> GetOutputPageCount(n, TwoUp) == 0 && GetOutputPageCount(n, FourUp) == 0
    ensures n == 1 ==> GetOutputPageCount(n, FourUp) == 1
    ensures n == 5 ==> GetOutputPageCount(n, TwoUp) == 3
    ensures n == 8 ==> GetOutputPageCount(n, FourUp) == 2
  {
  }

  /**
   * A 1-page document in 4-up gives one sheet with one filled slot; a 5-page
   * document in 2-up gives three sheets, the third with only its first slot
   * filled; an 8-page document in 4-up gives two full sheets.
   */
  lemma CompositionExamples(pages: seq<PageSize>, spacing: Spacing)
    ensures |pages| == 1 ==>
      |Composition(pages, FourUp, spacing)| == 1 && |Composition(pages, FourUp, spacing)[0].draws| == 1
    ensures |pages| == 5 ==>
      && |Composition(pages, TwoUp, spacing)| == 3
      && |Composition(pages, TwoUp, spacing)[2].draws| == 1
      && Composition(pages, TwoUp, spacing)[2].draws[0].source == 4
    ensures |pages| == 8 ==>
      && |Composition(pages, FourUp, spacing)| == 2
      && |Composition(pages, FourUp, spacing)[0].draws| == 4
      && |Composition(pages, FourUp, spacing)[1].draws| == 4
  {
  }
}
