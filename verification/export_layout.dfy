/** The vertical cursor of the PDF export: where a text block or a chart
    placeholder is drawn, when a page is added, and where the cursor ends.
    Lengths are millimetres; drawing itself is not modelled. */
module ExportLayout {

  const PageMargin: real := 15.0
  const LogoHeight: real := 12.0
  const FooterHeight: real := 15.0
  /** Space left below a chart placeholder. */
  const ChartSpacing: real := 10.0
  const DefaultChartHeight: real := 50.0

  /** The band of a page that content may occupy. */
  datatype Page = Page(top: real, bottom: real)

  /** The band for a page of the given height, below the header (taller
      when the logo is drawn) and above the footer. */
  function ContentBand(hasLogo: bool, pageHeight: real): (g: Page)
    ensures g.top == (if hasLogo then 39.0 else 32.0)
    ensures g.bottom == pageHeight - 30.0
  {
    Page(PageMargin + (if hasLogo then LogoHeight + 12.0 else 17.0),
         pageHeight - FooterHeight - PageMargin)
  }

  /** The document's points-per-unit scale factor, always positive. */
  type ScaleFactor = k: real | k > 0.0 witness 1.0

  /** Height of one line of text in a font of the given size. */
  function LineHeight(size: real, scaleFactor: ScaleFactor): (h: real)
    ensures size > 0.0 ==> h > 0.0
    ensures size <= 0.0 ==> h <= 0.0
  {
    (size / scaleFactor) * 1.25
  }

  /** The cursor: the current y and the number of pages of the document. */
  datatype Cursor = Cursor(y: real, pages: nat)

  /** Where a block was drawn, where the cursor ends, whether a page was
      added for it, and the page count afterwards. */
  datatype Placement = Placement(drawnAt: real, y: real, addedPage: bool, pages: nat) {
    function After(): Cursor {
      Cursor(y, pages)
    }
  }

  function Max(a: real, b: real): real {
    if a < b then b else a
  }

  /** Placing `lines` lines of text: the block starts no higher than the
      band's top; if it would cross the band's bottom a page is added and it
      starts at the top of the new page. */
  function PlaceText(g: Page, c: Cursor, lines: nat, lineHeight: real): (p: Placement)
    ensures p.drawnAt >= g.top
    ensures p.addedPage <==> Max(c.y, g.top) + lines as real * lineHeight > g.bottom
    ensures p.addedPage ==> p.drawnAt == g.top && p.pages == c.pages + 1
    ensures !p.addedPage ==> p.drawnAt == Max(c.y, g.top) && p.pages == c.pages && p.y <= g.bottom
    ensures p.y == p.drawnAt + lines as real * lineHeight
    ensures lines as real * lineHeight <= g.bottom - g.top ==> p.y <= g.bottom
  {
    var height := lines as real * lineHeight;
    var start := if c.y < g.top then g.top else c.y;
    if start + height > g.bottom then
      Placement(g.top, g.top + height, true, c.pages + 1)
    else
      Placement(start, start + height, false, c.pages)
  }

  /** Placing a chart placeholder of the given height. Unlike text, the
      start is not moved down to the band's top; only the overflow test
      can move it there, on a new page. */
  function PlaceChart(g: Page, c: Cursor, height: real): (p: Placement)
    ensures p.addedPage <==> c.y + height > g.bottom
    ensures p.addedPage ==> p.drawnAt == g.top && p.pages == c.pages + 1
    ensures !p.addedPage ==> p.drawnAt == c.y && p.pages == c.pages
    ensures p.y == p.drawnAt + height + ChartSpacing
  {
    if c.y + height > g.bottom then
      Placement(g.top, g.top + height + ChartSpacing, true, c.pages + 1)
    else
      Placement(c.y, c.y + height + ChartSpacing, false, c.pages)
  }

  /** A chart can be drawn above the band's top, where text never is. */
  lemma ChartIsNotClamped()
    ensures var g := ContentBand(false, 297.0);
      PlaceChart(g, Cursor(0.0, 1), DefaultChartHeight).drawnAt < g.top
  {
  }

  /** A text block of `lines` lines in a font of the given size, or a chart
      placeholder of the given height. */
  datatype Block = TextBlock(lines: nat, size: real) | Chart(height: real)

  function Place(g: Page, k: ScaleFactor, c: Cursor, b: Block): Placement {
    match b
    case TextBlock(lines, size) => PlaceText(g, c, lines, LineHeight(size, k))
    case Chart(height) => PlaceChart(g, c, height)
  }

  /** The cursor after placing the blocks one after another. */
  function Flow(g: Page, k: ScaleFactor, c: Cursor, blocks: seq<Block>): Cursor
    decreases |blocks|
  {
    if blocks == [] then c else Flow(g, k, Place(g, k, c, blocks[0]).After(), blocks[1..])
  }

  /** How many of the blocks are given a new page. */
  function Breaks(g: Page, k: ScaleFactor, c: Cursor, blocks: seq<Block>): nat
    decreases |blocks|
  {
    if blocks == [] then 0
    else
      var p := Place(g, k, c, blocks[0]);
      (if p.addedPage then 1 else 0) + Breaks(g, k, p.After(), blocks[1..])
  }

  /** A block no taller than the band. */
  predicate Fits(g: Page, k: ScaleFactor, b: Block) {
    match b
    case TextBlock(lines, size) => 0.0 <= lines as real * LineHeight(size, k) <= g.bottom - g.top
    case Chart(height) => 0.0 <= height <= g.bottom - g.top
  }

  /** The page count grows by exactly one per break, so it never shrinks
      and grows by at most one per block. */
  lemma {:induction false} FlowCountsPages(g: Page, k: ScaleFactor, c: Cursor, blocks: seq<Block>)
    ensures Flow(g, k, c, blocks).pages == c.pages + Breaks(g, k, c, blocks)
    ensures Breaks(g, k, c, blocks) <= |blocks|
    decreases |blocks|
  {
    if blocks != [] {
      FlowCountsPages(g, k, Place(g, k, c, blocks[0]).After(), blocks[1..]);
    }
  }

  /** When every block fits in the band, the cursor never ends more than a
      chart's spacing below the band's bottom, whatever the blocks. */
  lemma {:induction false} FlowStaysOnPage(g: Page, k: ScaleFactor, c: Cursor, blocks: seq<Block>)
    requires forall i :: 0 <= i < |blocks| ==> Fits(g, k, blocks[i])
    requires c.y <= g.bottom + ChartSpacing
    ensures Flow(g, k, c, blocks).y <= g.bottom + ChartSpacing
    decreases |blocks|
  {
    if blocks != [] {
      var p := Place(g, k, c, blocks[0]);
      assert Fits(g, k, blocks[0]);
      assert p.y <= g.bottom + ChartSpacing;
      FlowStaysOnPage(g, k, p.After(), blocks[1..]);
    }
  }
}
