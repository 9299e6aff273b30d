/** The text-flow layout of the ATS PDF: a vertical cursor on A4 pages that
    `addText` advances line by line, breaking the page before a block that would
    cross the bottom margin, and that `addSpace` and `addSection` move by fixed gaps.
    Lengths are in centipoints (1/100 pt), so `fontSize * 0.5` is exact. */
module PdfLayout {

  /** A4 in jsPDF points: 595.28 x 841.89. */
  const PageWidth: int := 59528
  const PageHeight: int := 84189
  const Margin: int := 4000
  const MaxWidth: int := PageWidth - 2 * Margin
  /** The lowest cursor position a block may reach without a page break. */
  const Bottom: int := PageHeight - Margin

  datatype Style = Normal | Bold | Italic
  datatype Align = Left | Center

  /** `fontSize * 0.5` points, the advance per line. */
  function LineAdvance(size: nat): int {
    size * 50
  }

  /** `addSpace(points)`. */
  function Points(points: nat): int {
    points * 100
  }

  /** `align === 'center' ? pageWidth / 2 : margin`. */
  function XFor(align: Align): int {
    if align == Center then PageWidth / 2 else Margin
  }

  /** What jsPDF is asked to draw. */
  datatype DrawOp =
    | DrawText(page: nat, x: int, y: int, line: string, size: nat, style: Style, color: string)
    | DrawRule(page: nat, y: int)

  function PageOf(op: DrawOp): nat {
    match op
    case DrawText(page, _, _, _, _, _, _) => page
    case DrawRule(page, _) => page
  }

  function YOf(op: DrawOp): int {
    match op
    case DrawText(_, _, y, _, _, _, _) => y
    case DrawRule(_, y) => y
  }

  /** The calls the exporter makes: `addText`, `addSpace` and `addSection`. */
  datatype Block =
    | Line(text: string, size: nat, style: Style, align: Align, color: string)
    | Gap(points: nat)
    | Heading(title: string)

  /** Cursor, current page (the first is 1) and everything drawn so far. */
  datatype Layout = Layout(y: int, page: nat, ops: seq<DrawOp>)

  const Start: Layout := Layout(Margin, 1, [])

  /** `pdf.splitTextToSize(text, maxWidth)` after setting the font size and style:
      font metrics decide the lines. */
  type Wrap = (string, nat, Style) -> seq<string>

  /** The wrapped lines, one below the other from `y0`. */
  function DrawLines(page: nat, x: int, y0: int, lines: seq<string>, size: nat, style: Style, color: string): (r: seq<DrawOp>)
    ensures |r| == |lines|
    decreases |lines|
  {
    if lines == [] then []
    else
      var n := |lines| - 1;
      DrawLines(page, x, y0, lines[..n], size, style, color) + [DrawText(page, x, y0 + n * LineAdvance(size), lines[n], size, style, color)]
  }

  /** Line `k` of a block is drawn `k` line advances below the block's top. */
  lemma {:induction false} DrawLinesAt(page: nat, x: int, y0: int, lines: seq<string>, size: nat, style: Style, color: string)
    ensures forall k :: 0 <= k < |lines| ==>
      DrawLines(page, x, y0, lines, size, style, color)[k] == DrawText(page, x, y0 + k * LineAdvance(size), lines[k], size, style, color)
    decreases |lines|
  {
    if lines != [] {
      var n := |lines| - 1;
      DrawLinesAt(page, x, y0, lines[..n], size, style, color);
    }
  }

  /** Whether a block of `n` lines at `size` starting at `y` crosses the bottom margin. */
  predicate Breaks(y: int, n: nat, size: nat) {
    y + n * LineAdvance(size) > Bottom
  }

  /** `addText`: nothing for empty text; otherwise one page check for the whole block,
      then each line drawn and the cursor moved by `fontSize * 0.5`. */
  function AddTextStep(st: Layout, wrap: Wrap, text: string, size: nat, style: Style, align: Align, color: string): Layout {
    if text == "" then st
    else
      var lines := wrap(text, size, style);
      var brk := Breaks(st.y, |lines|, size);
      var page := if brk then st.page + 1 else st.page;
      var y0 := if brk then Margin else st.y;
      Layout(y0 + |lines| * LineAdvance(size), page, st.ops + DrawLines(page, XFor(align), y0, lines, size, style, color))
  }

  /** The heading colour '#1a91f0'. */
  const Accent: string := "#1a91f0"

  /** One exporter call. `addSection` is 15 points of space, a rule, 5 points, the
      title in 14-point bold, and 10 points. */
  function Step(st: Layout, wrap: Wrap, b: Block): Layout {
    match b
    case Line(text, size, style, align, color) => AddTextStep(st, wrap, text, size, style, align, color)
    case Gap(p) => st.(y := st.y + Points(p))
    case Heading(title) =>
      var ruled := st.(y := st.y + Points(15));
      var below := Layout(ruled.y + Points(5), ruled.page, ruled.ops + [DrawRule(ruled.page, ruled.y)]);
      var titled := AddTextStep(below, wrap, title, 14, Bold, Left, Accent);
      titled.(y := titled.y + Points(10))
  }

  /** The layout after a sequence of calls from a fresh document. */
  function Exec(wrap: Wrap, blocks: seq<Block>): Layout
    decreases |blocks|
  {
    if blocks == [] then Start
    else Step(Exec(wrap, blocks[..|blocks| - 1]), wrap, blocks[|blocks| - 1])
  }

  // ---- properties of the primitives ----

  /** `addText` with empty text changes nothing: no line, same cursor, same page. */
  lemma EmptyTextIsNoOp(st: Layout, wrap: Wrap, size: nat, style: Style, align: Align, color: string)
    ensures Step(st, wrap, Line("", size, style, align, color)) == st
  {
  }

  /** `addSpace(s)` moves the cursor by exactly `s` and never breaks the page. */
  lemma GapAdvancesExactly(st: Layout, wrap: Wrap, p: nat)
    ensures Step(st, wrap, Gap(p)).y == st.y + Points(p)
    ensures Step(st, wrap, Gap(p)).page == st.page
    ensures Step(st, wrap, Gap(p)).ops == st.ops
  {
  }

  /** The page check: it runs once, before any line is drawn; a break starts the block at
      the top margin of a new page. Either way the cursor then moves by
      exactly `n * fontSize * 0.5`, and every line of the block lands on the same page. */
  lemma AddTextPaginates(st: Layout, wrap: Wrap, text: string, size: nat, style: Style, align: Align, color: string)
    requires text != ""
    ensures var n := |wrap(text, size, style)|;
      var after := AddTextStep(st, wrap, text, size, style, align, color);
      var top := if Breaks(st.y, n, size) then Margin else st.y;
      && after.page == (if Breaks(st.y, n, size) then st.page + 1 else st.page)
      && after.y == top + n * LineAdvance(size)
      && |after.ops| == |st.ops| + n
      && after.ops[..|st.ops|] == st.ops
      && (forall k :: |st.ops| <= k < |after.ops| ==>
            after.ops[k].DrawText? && PageOf(after.ops[k]) == after.page
            && YOf(after.ops[k]) == top + (k - |st.ops|) * LineAdvance(size))
  {
    var lines := wrap(text, size, style);
    var brk := Breaks(st.y, |lines|, size);
    var page := if brk then st.page + 1 else st.page;
    var top := if brk then Margin else st.y;
    var drawn := DrawLines(page, XFor(align), top, lines, size, style, color);
    DrawLinesAt(page, XFor(align), top, lines, size, style, color);
    assert AddTextStep(st, wrap, text, size, style, align, color).ops == st.ops + drawn;
    assert (st.ops + drawn)[..|st.ops|] == st.ops;
  }

  /** A block that fits in the printable area ends at or above the bottom margin when it
      starts on or below the top margin. */
  lemma FittingBlockStaysInMargins(st: Layout, wrap: Wrap, text: string, size: nat, style: Style, align: Align, color: string)
    requires text != "" && st.y >= Margin
    requires |wrap(text, size, style)| * LineAdvance(size) <= Bottom - Margin
    ensures AddTextStep(st, wrap, text, size, style, align, color).y <= Bottom
  {
  }

  /** A block taller than the printable area is not split: after the break it still runs
      past the bottom margin, all on one page. */
  lemma OversizedBlockOverflows(st: Layout, wrap: Wrap, text: string, size: nat, style: Style, align: Align, color: string)
    requires text != "" && st.y >= Margin
    requires |wrap(text, size, style)| * LineAdvance(size) > Bottom - Margin
    ensures AddTextStep(st, wrap, text, size, style, align, color).y > Bottom
    ensures AddTextStep(st, wrap, text, size, style, align, color).page <= st.page + 1
  {
  }

  /** Every op lies on an existing page (numbered from 1) and not above the top margin. */
  ghost predicate WithinPages(ops: seq<DrawOp>, page: nat) {
    forall k :: 0 <= k < |ops| ==> 1 <= PageOf(ops[k]) <= page && YOf(ops[k]) >= Margin
  }

  /** Ops are drawn in non-decreasing page order. */
  ghost predicate PageOrdered(ops: seq<DrawOp>) {
    forall i, j :: 0 <= i < j < |ops| ==> PageOf(ops[i]) <= PageOf(ops[j])
  }

  /** What holds of every layout the exporter can reach: the cursor never goes above the
      top margin, pages are drawn in order, and nothing is drawn on a page that does not
      exist yet or above the top margin. */
  ghost predicate WellFormed(st: Layout) {
    st.y >= Margin && st.page >= 1 && WithinPages(st.ops, st.page) && PageOrdered(st.ops)
  }

  /** Appending ops that all lie on the current page keeps the page order. */
  lemma AppendOnPage(ops: seq<DrawOp>, added: seq<DrawOp>, oldPage: nat, page: nat)
    requires WithinPages(ops, oldPage) && PageOrdered(ops)
    requires 1 <= oldPage <= page
    requires forall k :: 0 <= k < |added| ==> PageOf(added[k]) == page && YOf(added[k]) >= Margin
    ensures WithinPages(ops + added, page) && PageOrdered(ops + added)
  {
    var all := ops + added;
    forall i, j | 0 <= i < j < |all| ensures PageOf(all[i]) <= PageOf(all[j]) {
      if j < |ops| {
        assert all[i] == ops[i] && all[j] == ops[j];
      } else if i < |ops| {
        assert all[i] == ops[i] && all[j] == added[j - |ops|];
      } else {
        assert all[i] == added[i - |ops|] && all[j] == added[j - |ops|];
      }
    }
    forall k | 0 <= k < |all| ensures 1 <= PageOf(all[k]) <= page && YOf(all[k]) >= Margin {
      if k < |ops| {
        assert all[k] == ops[k];
      } else {
        assert all[k] == added[k - |ops|];
      }
    }
  }

  lemma AddTextKeepsWellFormed(st: Layout, wrap: Wrap, text: string, size: nat, style: Style, align: Align, color: string)
    requires WellFormed(st)
    ensures WellFormed(AddTextStep(st, wrap, text, size, style, align, color))
  {
    if text != "" {
      var lines := wrap(text, size, style);
      var brk := Breaks(st.y, |lines|, size);
      var page := if brk then st.page + 1 else st.page;
      var top := if brk then Margin else st.y;
      var drawn := DrawLines(page, XFor(align), top, lines, size, style, color);
      DrawLinesAt(page, XFor(align), top, lines, size, style, color);
      forall k | 0 <= k < |drawn| ensures PageOf(drawn[k]) == page && YOf(drawn[k]) >= Margin {
        assert YOf(drawn[k]) == top + k * LineAdvance(size);
      }
      AppendOnPage(st.ops, drawn, st.page, page);
    }
  }

  lemma {:induction false} StepKeepsWellFormed(st: Layout, wrap: Wrap, b: Block)
    requires WellFormed(st)
    ensures WellFormed(Step(st, wrap, b))
  {
    match b
    case Line(text, size, style, align, color) =>
      AddTextKeepsWellFormed(st, wrap, text, size, style, align, color);
    case Gap(p) =>
    case Heading(title) =>
      var ruled := st.(y := st.y + Points(15));
      var below := Layout(ruled.y + Points(5), ruled.page, ruled.ops + [DrawRule(ruled.page, ruled.y)]);
      AppendOnPage(st.ops, [DrawRule(ruled.page, ruled.y)], st.page, st.page);
      AddTextKeepsWellFormed(below, wrap, title, 14, Bold, Left, Accent);
  }

  /** Every sequence of exporter calls yields a well-formed layout. */
  lemma {:induction false} ExecWellFormed(wrap: Wrap, blocks: seq<Block>)
    ensures WellFormed(Exec(wrap, blocks))
    decreases |blocks|
  {
    if blocks != [] {
      ExecWellFormed(wrap, blocks[..|blocks| - 1]);
      StepKeepsWellFormed(Exec(wrap, blocks[..|blocks| - 1]), wrap, blocks[|blocks| - 1]);
    }
  }

  /** Calls never take anything back: later calls only append to what is drawn. */
  lemma {:induction false} ExecExtends(wrap: Wrap, blocks: seq<Block>, more: seq<Block>)
    ensures Exec(wrap, blocks).ops <= Exec(wrap, blocks + more).ops
    ensures Exec(wrap, blocks).page <= Exec(wrap, blocks + more).page
    decreases |more|
  {
    if more == [] {
      assert blocks + more == blocks;
    } else {
      var init := more[..|more| - 1];
      ExecExtends(wrap, blocks, init);
      assert (blocks + more)[..|blocks + more| - 1] == blocks + init;
    }
  }

  /** The ATS PDF document under construction: the cursor `yPosition`, the current page
      and the drawn content. `log` records the calls made so far. */
  class PdfDocument {
    const wrap: Wrap
    var y: int
    var page: nat
    var ops: seq<DrawOp>
    ghost var log: seq<Block>

    ghost function State(): Layout
      reads this
    {
      Layout(y, page, ops)
    }

    /** The state is what the recorded calls produce. */
    ghost predicate Valid()
      reads this
    {
      State() == Exec(wrap, log)
    }

    /** `new jsPDF({ unit: 'pt', format: 'a4' })` with the cursor at the top margin. */
    constructor (wrap: Wrap)
      ensures this.wrap == wrap && log == [] && Valid()
      ensures y == Margin && page == 1 && ops == []
    {
      this.wrap := wrap;
      y := Margin;
      page := 1;
      ops := [];
      log := [];
    }

    /** The body of `addText`, shared by `AddText` and `AddSection`. */
    method PlaceText(text: string, size: nat, style: Style, align: Align, color: string)
      modifies this
      ensures State() == AddTextStep(old(State()), wrap, text, size, style, align, color)
      ensures log == old(log)
    {
      if text == "" {
        return;
      }
      var lines := wrap(text, size, style);
      if y + |lines| * LineAdvance(size) > Bottom {
        page := page + 1;
        y := Margin;
      }
      var x := if align == Center then PageWidth / 2 else Margin;
      DrawBlock(lines, x, size, style, color);
    }

    /** `lines.forEach(line => { pdf.text(line, x, yPosition); yPosition += fontSize * 0.5 })`. */
    method DrawBlock(lines: seq<string>, x: int, size: nat, style: Style, color: string)
      modifies this
      ensures ops == old(ops) + DrawLines(page, x, old(y), lines, size, style, color)
      ensures y == old(y) + |lines| * LineAdvance(size)
      ensures page == old(page) && log == old(log)
    {
      var advance := LineAdvance(size);
      var i := 0;
      while i < |lines|
        invariant 0 <= i <= |lines|
        invariant page == old(page) && log == old(log)
        invariant y == old(y) + i * advance
        invariant ops == old(ops) + DrawLines(page, x, old(y), lines[..i], size, style, color)
      {
        ghost var prefix := lines[..i + 1];
        assert prefix[..i] == lines[..i] && prefix[i] == lines[i];
        assert DrawLines(page, x, old(y), prefix, size, style, color) ==
          DrawLines(page, x, old(y), lines[..i], size, style, color) + [DrawText(page, x, y, lines[i], size, style, color)];
        ops := ops + [DrawText(page, x, y, lines[i], size, style, color)];
        y := y + advance;
        assert y == old(y) + (i + 1) * advance by {
          assert (i + 1) * advance == i * advance + advance;
        }
        i := i + 1;
      }
      assert lines[..i] == lines;
    }

    /** `addText(text, fontSize, fontStyle, align, color)`. */
    method AddText(text: string, size: nat, style: Style, align: Align, color: string)
      requires Valid()
      modifies this
      ensures Valid() && log == old(log) + [Line(text, size, style, align, color)]
      ensures text == "" ==> y == old(y) && page == old(page) && ops == old(ops)
    {
      PlaceText(text, size, style, align, color);
      log := log + [Line(text, size, style, align, color)];
      assert log[..|log| - 1] == old(log);
    }

    /** `addSpace(points)`. */
    method AddSpace(points: nat)
      requires Valid()
      modifies this
      ensures Valid() && log == old(log) + [Gap(points)]
      ensures y == old(y) + Points(points) && page == old(page) && ops == old(ops)
    {
      y := y + Points(points);
      log := log + [Gap(points)];
      assert log[..|log| - 1] == old(log);
    }

    /** `addSection(title)`. */
    method AddSection(title: string)
      requires Valid()
      modifies this
      ensures Valid() && log == old(log) + [Heading(title)]
    {
      y := y + Points(15);
      ops := ops + [DrawRule(page, y)];
      y := y + Points(5);
      PlaceText(title, 14, Bold, Left, Accent);
      y := y + Points(10);
      log := log + [Heading(title)];
      assert log[..|log| - 1] == old(log);
    }
  }
}
