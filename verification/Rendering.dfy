/** Rows, the header rule and the whole table as printed lines, and the display width of each. */
module Rendering {
  import opened Basics
  import opened Wrapping
  import opened Tables

  function Repeat(s: string, n: int): string {
    if n <= 0 then "" else s + Repeat(s, n - 1)
  }

  function Spaces(n: int): string {
    Repeat(" ", n)
  }

  lemma {:induction false} RepeatWidth(cw: CharWidth, s: string, n: int)
    requires Width(cw, s) == 1
    ensures Width(cw, Repeat(s, n)) == Max(n, 0)
  {
    if n > 0 {
      RepeatWidth(cw, s, n - 1);
      WidthConcat(cw, s, Repeat(s, n - 1));
    }
  }

  lemma {:induction false} RepeatNoNewline(s: string, n: int)
    requires '\n' !in s
    ensures '\n' !in Repeat(s, n)
  {
    if n > 0 { RepeatNoNewline(s, n - 1); }
  }

  /** sep.join(parts). */
  function Join(sep: string, parts: seq<string>): string {
    if parts == [] then "" else if |parts| == 1 then parts[0] else parts[0] + sep + Join(sep, parts[1..])
  }

  function Pad(cw: CharWidth, text: string, width: int): string {
    text + Spaces(width - Width(cw, text))
  }

  lemma SpaceWidth(cw: CharWidth, n: int)
    requires cw(' ') == 1
    ensures Width(cw, Spaces(n)) == Max(n, 0)
  {
    assert " "[1..] == "";
    RepeatWidth(cw, " ", n);
  }

  lemma PadWidth(cw: CharWidth, text: string, width: int)
    requires cw(' ') == 1
    ensures Width(cw, Pad(cw, text, width)) == Max(width, Width(cw, text))
  {
    SpaceWidth(cw, width - Width(cw, text));
    WidthConcat(cw, text, Spaces(width - Width(cw, text)));
  }

  // ---------------------------------------------------------------- one row

  /** The lines of each cell: wrapped in the wrapped column, as they are elsewhere. */
  function CellLines(cw: CharWidth, row: Row, widths: seq<int>, wrapIdx: Option<nat>): (cells: seq<seq<string>>)
    requires |row| == |widths|
    ensures |cells| == |row|
  {
    seq(|row|, i requires 0 <= i < |row| =>
      if wrapIdx == Some(i) then WrapCell(cw, row[i], widths[i]) else [row[i]])
  }

  function Height(cells: seq<seq<string>>): nat {
    if cells == [] then 0 else
      var rest := Height(cells[1..]);
      if |cells[0]| > rest then |cells[0]| else rest
  }

  function ValueAt(lines: seq<string>, k: nat): string {
    if k < |lines| then lines[k] else ""
  }

  function LineParts(cw: CharWidth, cells: seq<seq<string>>, widths: seq<int>, k: nat): (parts: seq<string>)
    requires |cells| == |widths|
    ensures |parts| == |widths|
  {
    seq(|cells|, i requires 0 <= i < |cells| => Pad(cw, ValueAt(cells[i], k), widths[i]))
  }

  function RowLine(cw: CharWidth, layout: Layout, cells: seq<seq<string>>, widths: seq<int>, k: nat): string
    requires |cells| == |widths|
  {
    Spaces(layout.indent) + Join(Spaces(layout.gap), LineParts(cw, cells, widths, k))
  }

  function RenderRow(cw: CharWidth, layout: Layout, row: Row, widths: seq<int>, wrapIdx: Option<nat>): seq<string>
    requires |row| == |widths|
  {
    var cells := CellLines(cw, row, widths, wrapIdx);
    seq(Height(cells), k requires 0 <= k => RowLine(cw, layout, cells, widths, k))
  }

  /** _render_row: the cells' lines first, then line after line across the columns. */
  method RenderRowLoop(cw: CharWidth, layout: Layout, row: Row, widths: seq<int>, wrapIdx: Option<nat>)
    returns (rendered: seq<string>)
    requires |row| == |widths|
    ensures rendered == RenderRow(cw, layout, row, widths, wrapIdx)
  {
    hide Height, RowLine, CellLines;
    var cellLines := LinesOfCells(cw, row, widths, wrapIdx);
    var maxLines := Tallest(cellLines);
    rendered := [];
    for k := 0 to maxLines
      invariant rendered == RenderRow(cw, layout, row, widths, wrapIdx)[..k]
    {
      var line := RenderLine(cw, layout, cellLines, widths, k);
      rendered := rendered + [line];
    }
  }

  method LinesOfCells(cw: CharWidth, row: Row, widths: seq<int>, wrapIdx: Option<nat>)
    returns (cellLines: seq<seq<string>>)
    requires |row| == |widths|
    ensures cellLines == CellLines(cw, row, widths, wrapIdx)
  {
    hide WrapCell;
    cellLines := [];
    for i := 0 to |row|
      invariant cellLines == CellLines(cw, row, widths, wrapIdx)[..i]
    {
      var lines := [row[i]];
      if wrapIdx == Some(i) {
        lines := WrapCellLoop(cw, row[i], widths[i]);
      }
      cellLines := cellLines + [lines];
    }
  }

  method Tallest(cellLines: seq<seq<string>>) returns (maxLines: nat)
    ensures maxLines == Height(cellLines)
  {
    maxLines := 0;
    for i := 0 to |cellLines|
      invariant Max(maxLines, Height(cellLines[i..])) == Height(cellLines)
    {
      assert cellLines[i..][1..] == cellLines[i + 1..];
      if |cellLines[i]| > maxLines {
        maxLines := |cellLines[i]|;
      }
    }
  }

  method RenderLine(cw: CharWidth, layout: Layout, cellLines: seq<seq<string>>, widths: seq<int>, k: nat)
    returns (line: string)
    requires |cellLines| == |widths|
    ensures line == RowLine(cw, layout, cellLines, widths, k)
  {
    hide Pad, Join, Spaces;
    var parts: seq<string> := [];
    for i := 0 to |cellLines|
      invariant parts == LineParts(cw, cellLines, widths, k)[..i]
    {
      parts := parts + [Pad(cw, ValueAt(cellLines[i], k), widths[i])];
    }
    assert parts == LineParts(cw, cellLines, widths, k);
    line := Spaces(layout.indent) + Join(Spaces(layout.gap), parts);
  }

  lemma {:induction false} JoinWidth(cw: CharWidth, sep: string, parts: seq<string>, widths: seq<int>)
    requires |parts| == |widths| && forall i :: 0 <= i < |parts| ==> Width(cw, parts[i]) == widths[i]
    ensures Width(cw, Join(sep, parts)) == Width(cw, sep) * Max(0, |parts| - 1) + Sum(widths)
  {
    if |parts| == 1 {
      assert widths[1..] == [];
    } else if |parts| > 1 {
      JoinWidth(cw, sep, parts[1..], widths[1..]);
      WidthConcat(cw, parts[0] + sep, Join(sep, parts[1..]));
      WidthConcat(cw, parts[0], sep);
      assert Width(cw, sep) * (|parts| - 1) == Width(cw, sep) + Width(cw, sep) * (|parts| - 2);
    }
  }

  function Clipped(widths: seq<int>): (clipped: seq<int>)
    ensures |clipped| == |widths|
  {
    seq(|widths|, i requires 0 <= i < |widths| => Max(widths[i], 0))
  }

  /** What spaces can fill: a negative indent, gap or width prints nothing. */
  function LineWidth(layout: Layout, widths: seq<int>): int {
    Max(layout.indent, 0) + Max(layout.gap, 0) * Max(0, |widths| - 1) + Sum(Clipped(widths))
  }

  lemma RowLineWidth(cw: CharWidth, layout: Layout, cells: seq<seq<string>>, widths: seq<int>, k: nat)
    requires cw(' ') == 1 && |cells| == |widths|
    requires forall i :: 0 <= i < |cells| ==> LinesFit(cw, cells[i], Max(widths[i], 0))
    ensures Width(cw, RowLine(cw, layout, cells, widths, k)) == LineWidth(layout, widths)
  {
    var parts := LineParts(cw, cells, widths, k);
    forall i | 0 <= i < |parts| ensures Width(cw, parts[i]) == Clipped(widths)[i] {
      assert LinesFit(cw, cells[i], Max(widths[i], 0));
      PadWidth(cw, ValueAt(cells[i], k), widths[i]);
    }
    JoinWidth(cw, Spaces(layout.gap), parts, Clipped(widths));
    SpaceWidth(cw, layout.gap);
    SpaceWidth(cw, layout.indent);
    WidthConcat(cw, Spaces(layout.indent), Join(Spaces(layout.gap), parts));
  }

  lemma {:induction false} SumGrows(a: seq<int>, b: seq<int>, i: nat)
    requires |a| == |b| && i < |a| && a[i] < b[i] && forall j :: 0 <= j < |a| ==> a[j] <= b[j]
    ensures Sum(a) < Sum(b)
  {
    if i > 0 { SumGrows(a[1..], b[1..], i - 1); } else { SumNoLess(a[1..], b[1..]); }
  }

  lemma {:induction false} SumNoLess(a: seq<int>, b: seq<int>)
    requires |a| == |b| && forall j :: 0 <= j < |a| ==> a[j] <= b[j]
    ensures Sum(a) <= Sum(b)
  {
    if a != [] { SumNoLess(a[1..], b[1..]); }
  }

  /** One part that overflows its column makes the whole line too wide: padding never shrinks the others. */
  lemma OverflowingLine(cw: CharWidth, layout: Layout, cells: seq<seq<string>>, widths: seq<int>, k: nat, i: nat)
    requires cw(' ') == 1 && |cells| == |widths| && i < |cells|
    requires Width(cw, ValueAt(cells[i], k)) > Max(widths[i], 0)
    ensures Width(cw, RowLine(cw, layout, cells, widths, k)) > LineWidth(layout, widths)
  {
    hide Width, Join, Spaces, Pad, Sum;
    var parts := LineParts(cw, cells, widths, k);
    var actual := seq(|parts|, j requires 0 <= j < |parts| => Width(cw, parts[j]));
    forall j | 0 <= j < |parts| ensures actual[j] == Max(widths[j], Width(cw, ValueAt(cells[j], k))) {
      PadWidth(cw, ValueAt(cells[j], k), widths[j]);
    }
    SumGrows(Clipped(widths), actual, i);
    JoinWidth(cw, Spaces(layout.gap), parts, actual);
    SpaceWidth(cw, layout.gap);
    SpaceWidth(cw, layout.indent);
    WidthConcat(cw, Spaces(layout.indent), Join(Spaces(layout.gap), parts));
  }

  // ---------------------------------------------------------------- the table

  function RuleParts(layout: Layout, widths: seq<int>): (parts: seq<string>)
    ensures |parts| == |widths|
  {
    seq(|widths|, i requires 0 <= i < |widths| => Repeat(layout.rule, widths[i]))
  }

  /** _render_header_sep. */
  function HeaderRule(layout: Layout, widths: seq<int>): string {
    Spaces(layout.indent) + Join(Spaces(layout.gap), RuleParts(layout, widths))
  }

  function Body(cw: CharWidth, layout: Layout, rows: seq<Row>, widths: seq<int>, wrapIdx: Option<nat>): seq<string>
    requires forall k :: 0 <= k < |rows| ==> |rows[k]| == |widths|
  {
    if rows == [] then []
    else RenderRow(cw, layout, rows[0], widths, wrapIdx) + Body(cw, layout, rows[1..], widths, wrapIdx)
  }

  /** The lines print_data joins: the header row, the rule, the data rows. */
  function Printed(cw: CharWidth, layout: Layout, rows: seq<Row>): seq<string>
    requires Rectangular(rows)
  {
    var widths := Resolved(layout, ColWidths(cw, rows));
    var wrapIdx := WrapColumn(layout, ColWidths(cw, rows));
    RenderRow(cw, layout, rows[0], widths, wrapIdx) + [HeaderRule(layout, widths)]
    + Body(cw, layout, rows[1..], widths, wrapIdx)
  }

  method PrintData(cw: CharWidth, layout: Layout, rows: seq<Row>) returns (lines: seq<string>)
    requires Rectangular(rows)
    ensures lines == Printed(cw, layout, rows)
  {
    hide RenderRow, HeaderRule, ColWidths, Resolved, WrapColumn;
    var colWidths := ComputeColWidths(cw, rows);
    var wrapIdx := ResolveWrap(layout, colWidths);
    ghost var widths := colWidths[..];
    lines := [];
    for k := 0 to |rows|
      invariant colWidths[..] == widths
      invariant k == 0 ==> lines == []
      invariant k > 0 ==> lines + Body(cw, layout, rows[k..], widths, wrapIdx) == Printed(cw, layout, rows)
    {
      assert rows[k..][0] == rows[k] && rows[k..][1..] == rows[k + 1..];
      var rendered := RenderRowLoop(cw, layout, rows[k], colWidths[..], wrapIdx);
      lines := lines + rendered;
      if k == 0 {
        lines := lines + [HeaderRule(layout, colWidths[..])];
      }
    }
    assert rows[|rows|..] == [];
  }

  /** Every character of the wrapped column fits its new width, newlines aside; all have none if that is none. */
  ghost predicate WrapFits(cw: CharWidth, layout: Layout, rows: seq<Row>)
    requires Rectangular(rows)
  {
    var i, widths := WrapColumn(layout, ColWidths(cw, rows)), Resolved(layout, ColWidths(cw, rows));
    i.Some? ==> forall k :: 0 <= k < |rows| ==> CellWrapFits(cw, rows[k][i.value], widths[i.value])
  }

  ghost predicate CellWrapFits(cw: CharWidth, text: string, width: int) {
    if width > 0 then CharsFit(cw, WithoutNewlines(text), width) else Width(cw, text) == 0
  }

  lemma WrappedCellLines(cw: CharWidth, text: string, width: int)
    ensures LinesFit(cw, WrapCell(cw, text, width), Max(width, 0)) <==> CellWrapFits(cw, text, width)
  {
    hide WrapParts, WithoutNewlines;
    if width > 0 {
      WrapCellCorrect(cw, text, width);
    } else {
      assert [text][0] == text;
    }
  }

  lemma CellsFit(cw: CharWidth, layout: Layout, rows: seq<Row>, k: nat, i: nat)
    requires Rectangular(rows) && WrapFits(cw, layout, rows) && k < |rows| && i < |rows[0]|
    ensures
      var widths := Resolved(layout, ColWidths(cw, rows));
      LinesFit(cw, CellLines(cw, rows[k], widths, WrapColumn(layout, ColWidths(cw, rows)))[i], Max(widths[i], 0))
  {
    hide WrapCell, CellWrapFits;
    var before := ColWidths(cw, rows);
    WrappedCellLines(cw, rows[k][i], Resolved(layout, before)[i]);
    if WrapColumn(layout, before) != Some(i) { CellNoWider(cw, rows, i, k, |rows|); }
  }

  ghost predicate AllOfWidth(cw: CharWidth, lines: seq<string>, w: int) {
    forall i :: 0 <= i < |lines| ==> Width(cw, lines[i]) == w
  }

  lemma RowsOfOneWidth(cw: CharWidth, layout: Layout, row: Row, widths: seq<int>, wrapIdx: Option<nat>)
    requires cw(' ') == 1 && |row| == |widths|
    requires forall i :: 0 <= i < |row| ==> LinesFit(cw, CellLines(cw, row, widths, wrapIdx)[i], Max(widths[i], 0))
    ensures AllOfWidth(cw, RenderRow(cw, layout, row, widths, wrapIdx), LineWidth(layout, widths))
  {
    var cells := CellLines(cw, row, widths, wrapIdx);
    forall k: nat | k < Height(cells)
      ensures Width(cw, RowLine(cw, layout, cells, widths, k)) == LineWidth(layout, widths)
    {
      RowLineWidth(cw, layout, cells, widths, k);
    }
  }

  lemma HeaderRuleWidth(cw: CharWidth, layout: Layout, widths: seq<int>)
    requires cw(' ') == 1 && Width(cw, layout.rule) == 1
    ensures Width(cw, HeaderRule(layout, widths)) == LineWidth(layout, widths)
  {
    var parts := RuleParts(layout, widths);
    forall i | 0 <= i < |parts| ensures Width(cw, parts[i]) == Clipped(widths)[i] {
      RepeatWidth(cw, layout.rule, widths[i]);
    }
    JoinWidth(cw, Spaces(layout.gap), parts, Clipped(widths));
    SpaceWidth(cw, layout.gap);
    SpaceWidth(cw, layout.indent);
    WidthConcat(cw, Spaces(layout.indent), Join(Spaces(layout.gap), parts));
  }

  lemma {:induction false} BodyOfOneWidth(cw: CharWidth, layout: Layout, rows: seq<Row>, from: nat)
    requires cw(' ') == 1 && Rectangular(rows) && WrapFits(cw, layout, rows) && from <= |rows|
    ensures
      var widths := Resolved(layout, ColWidths(cw, rows));
      AllOfWidth(cw, Body(cw, layout, rows[from..], widths, WrapColumn(layout, ColWidths(cw, rows))),
                 LineWidth(layout, widths))
    decreases |rows| - from
  {
    hide WrapFits, LinesFit, CellLines, LineWidth, Resolved, WrapColumn, RenderRow;
    if from < |rows| {
      assert rows[from..][1..] == rows[from + 1..] && rows[from..][0] == rows[from];
      BodyOfOneWidth(cw, layout, rows, from + 1);
      RowAt(cw, layout, rows, from);
    }
  }

  lemma RowAt(cw: CharWidth, layout: Layout, rows: seq<Row>, k: nat)
    requires cw(' ') == 1 && Rectangular(rows) && WrapFits(cw, layout, rows) && k < |rows|
    ensures
      var widths := Resolved(layout, ColWidths(cw, rows));
      AllOfWidth(cw, RenderRow(cw, layout, rows[k], widths, WrapColumn(layout, ColWidths(cw, rows))),
                 LineWidth(layout, widths))
  {
    hide WrapFits, LinesFit, CellLines, LineWidth, Resolved, WrapColumn;
    var widths := Resolved(layout, ColWidths(cw, rows));
    var wrapIdx := WrapColumn(layout, ColWidths(cw, rows));
    forall i | 0 <= i < |rows[k]|
      ensures LinesFit(cw, CellLines(cw, rows[k], widths, wrapIdx)[i], Max(widths[i], 0))
    {
      CellsFit(cw, layout, rows, k, i);
    }
    RowsOfOneWidth(cw, layout, rows[k], widths, wrapIdx);
  }

  lemma FittingLinesHaveOneWidth(cw: CharWidth, layout: Layout, rows: seq<Row>)
    requires cw(' ') == 1 && Width(cw, layout.rule) == 1 && Rectangular(rows) && WrapFits(cw, layout, rows)
    ensures AllOfWidth(cw, Printed(cw, layout, rows), LineWidth(layout, Resolved(layout, ColWidths(cw, rows))))
  {
    hide WrapFits, LineWidth, Resolved, WrapColumn, RenderRow, HeaderRule, ColWidths;
    RowAt(cw, layout, rows, 0);
    HeaderRuleWidth(cw, layout, Resolved(layout, ColWidths(cw, rows)));
    BodyOfOneWidth(cw, layout, rows, 1);
  }

  lemma {:induction false} HeightCovers(cells: seq<seq<string>>, i: nat)
    requires i < |cells|
    ensures |cells[i]| <= Height(cells)
  {
    if i > 0 { HeightCovers(cells[1..], i - 1); }
  }

  lemma {:induction false} RowInBody(
      cw: CharWidth, layout: Layout, rows: seq<Row>, widths: seq<int>, wrapIdx: Option<nat>, k: nat, line: string)
    requires k < |rows| && forall j :: 0 <= j < |rows| ==> |rows[j]| == |widths|
    requires line in RenderRow(cw, layout, rows[k], widths, wrapIdx)
    ensures line in Body(cw, layout, rows, widths, wrapIdx)
  {
    hide RenderRow;
    if k > 0 { RowInBody(cw, layout, rows[1..], widths, wrapIdx, k - 1, line); }
  }

  /** Where the wrapped column does not fit, some row is printed with a line wider than the rule. */
  lemma OverflowIsPrinted(cw: CharWidth, layout: Layout, rows: seq<Row>) returns (line: string)
    requires cw(' ') == 1 && Rectangular(rows) && !WrapFits(cw, layout, rows)
    ensures line in Printed(cw, layout, rows)
    ensures Width(cw, line) > LineWidth(layout, Resolved(layout, ColWidths(cw, rows)))
  {
    hide WrapCell, CellWrapFits, LineWidth, RowLine, HeaderRule, Height, Body;
    var widths, wrapIdx := Resolved(layout, ColWidths(cw, rows)), WrapColumn(layout, ColWidths(cw, rows));
    var i := wrapIdx.value;
    var k: nat :| k < |rows| && !CellWrapFits(cw, rows[k][i], widths[i]);
    hide Resolved, WrapColumn, ColWidths, WrapFits;
    WrappedCellLines(cw, rows[k][i], widths[i]);
    var cells := CellLines(cw, rows[k], widths, wrapIdx);
    var j: nat :| j < |cells[i]| && Width(cw, cells[i][j]) > Max(widths[i], 0);
    HeightCovers(cells, i);
    OverflowingLine(cw, layout, cells, widths, j, i);
    line := RowLine(cw, layout, cells, widths, j);
    assert line == RenderRow(cw, layout, rows[k], widths, wrapIdx)[j];
    if k > 0 {
      assert rows[k] == rows[1..][k - 1];
      RowInBody(cw, layout, rows[1..], widths, wrapIdx, k - 1, line);
    }
  }

  /**
   * All lines of a printed table have one display width, namely indent, gaps and column widths, if and only if the
   * wrapped column fits its new width.
   */
  lemma PrintedLinesHaveOneWidth(cw: CharWidth, layout: Layout, rows: seq<Row>)
    requires cw(' ') == 1 && Width(cw, layout.rule) == 1 && Rectangular(rows)
    ensures (exists w :: AllOfWidth(cw, Printed(cw, layout, rows), w)) <==> WrapFits(cw, layout, rows)
    ensures WrapFits(cw, layout, rows) <==>
            AllOfWidth(cw, Printed(cw, layout, rows), LineWidth(layout, Resolved(layout, ColWidths(cw, rows))))
  {
    hide WrapFits, LineWidth, Resolved, ColWidths, HeaderRule, Printed;
    var widths, lines := Resolved(layout, ColWidths(cw, rows)), Printed(cw, layout, rows);
    if WrapFits(cw, layout, rows) {
      FittingLinesHaveOneWidth(cw, layout, rows);
    } else {
      var line := OverflowIsPrinted(cw, layout, rows);
      RuleIsPrinted(cw, layout, rows);
      HeaderRuleWidth(cw, layout, widths);
      forall w ensures !AllOfWidth(cw, lines, w) {
        assert line in lines && HeaderRule(layout, widths) in lines;
      }
    }
  }

  /**
   * When a column wraps, every printed line fills the terminal exactly if and only if its characters fit and neither
   * the minimum width nor the other columns stand in the way.
   */
  lemma WrappedLinesFillTerminal(cw: CharWidth, layout: Layout, rows: seq<Row>)
    requires cw(' ') == 1 && Width(cw, layout.rule) == 1 && layout.indent >= 0 && layout.gap >= 0
    requires Rectangular(rows) && WrapColumn(layout, ColWidths(cw, rows)).Some?
    ensures var widths := ColWidths(cw, rows);
            AllOfWidth(cw, Printed(cw, layout, rows), layout.terminal.value)
            <==> WrapFits(cw, layout, rows)
                 && Available(layout, widths, WrapColumn(layout, widths).value) >= Max(layout.minWidth, 0)
  {
    hide Printed, WrapFits, AllOfWidth, Available;
    PrintedLinesHaveOneWidth(cw, layout, rows);
    ResolvedLineWidth(layout, ColWidths(cw, rows));
    OneWidthOnly(cw, layout, rows, layout.terminal.value);
  }

  lemma ResolvedLineWidth(layout: Layout, widths: seq<int>)
    requires layout.indent >= 0 && layout.gap >= 0 && (forall i :: 0 <= i < |widths| ==> widths[i] >= 0)
    requires WrapColumn(layout, widths).Some?
    ensures var i := WrapColumn(layout, widths).value;
            LineWidth(layout, Resolved(layout, widths)) == layout.terminal.value
            <==> Available(layout, widths, i) >= Max(layout.minWidth, 0)
  {
    var i := WrapColumn(layout, widths).value;
    var target := Max(layout.minWidth, Available(layout, widths, i));
    assert Clipped(Resolved(layout, widths)) == widths[i := Max(target, 0)];
    SumUpdate(widths, i, Max(target, 0));
  }

  lemma OneWidthOnly(cw: CharWidth, layout: Layout, rows: seq<Row>, w: int)
    requires Rectangular(rows) && cw(' ') == 1 && Width(cw, layout.rule) == 1
    ensures AllOfWidth(cw, Printed(cw, layout, rows), w) ==>
              w == LineWidth(layout, Resolved(layout, ColWidths(cw, rows)))
  {
    hide HeaderRule, Printed, LineWidth;
    RuleIsPrinted(cw, layout, rows);
    HeaderRuleWidth(cw, layout, Resolved(layout, ColWidths(cw, rows)));
  }

  lemma RuleIsPrinted(cw: CharWidth, layout: Layout, rows: seq<Row>)
    requires Rectangular(rows)
    ensures HeaderRule(layout, Resolved(layout, ColWidths(cw, rows))) in Printed(cw, layout, rows)
  {
  }

  // ---------------------------------------------------------------- rows stand in order

  function RowLines(cw: CharWidth, layout: Layout, rows: seq<Row>, r: nat): seq<string>
    requires Rectangular(rows) && r < |rows|
  {
    RenderRow(cw, layout, rows[r], Resolved(layout, ColWidths(cw, rows)), WrapColumn(layout, ColWidths(cw, rows)))
  }

  /** Where the lines of row r begin: after those of the rows above, the rule counting as one below the header. */
  function FirstLine(cw: CharWidth, layout: Layout, rows: seq<Row>, r: nat): nat
    requires Rectangular(rows) && r <= |rows|
  {
    if r == 0 then 0
    else FirstLine(cw, layout, rows, r - 1) + |RowLines(cw, layout, rows, r - 1)| + if r == 1 then 1 else 0
  }

  ghost function BodyFrom(cw: CharWidth, layout: Layout, rows: seq<Row>, r: nat): seq<string>
    requires Rectangular(rows) && r <= |rows|
  {
    Body(cw, layout, rows[r..], Resolved(layout, ColWidths(cw, rows)), WrapColumn(layout, ColWidths(cw, rows)))
  }

  lemma BodySplits(cw: CharWidth, layout: Layout, rows: seq<Row>, r: nat)
    requires Rectangular(rows) && r < |rows|
    ensures BodyFrom(cw, layout, rows, r) == RowLines(cw, layout, rows, r) + BodyFrom(cw, layout, rows, r + 1)
  {
    hide RenderRow, Resolved, WrapColumn, ColWidths;
    assert rows[r..][0] == rows[r] && rows[r..][1..] == rows[r + 1..];
  }

  lemma {:induction false} LinesFromRow(cw: CharWidth, layout: Layout, rows: seq<Row>, r: nat)
    requires Rectangular(rows) && 1 <= r <= |rows|
    ensures FirstLine(cw, layout, rows, r) <= |Printed(cw, layout, rows)|
    ensures Printed(cw, layout, rows)[FirstLine(cw, layout, rows, r)..] == BodyFrom(cw, layout, rows, r)
  {
    hide RenderRow, Resolved, WrapColumn, ColWidths, HeaderRule, Body;
    if r > 1 {
      LinesFromRow(cw, layout, rows, r - 1);
      BodySplits(cw, layout, rows, r - 1);
      var from, n := FirstLine(cw, layout, rows, r - 1), |RowLines(cw, layout, rows, r - 1)|;
      assert Printed(cw, layout, rows)[from..][n..] == Printed(cw, layout, rows)[from + n..];
    } else {
      assert FirstLine(cw, layout, rows, 1) == |RowLines(cw, layout, rows, 0)| + 1;
    }
  }

  /** The header row comes first, then the rule, then the data rows, each with all its lines; and nothing else. */
  lemma RowsInOrder(cw: CharWidth, layout: Layout, rows: seq<Row>, r: nat)
    requires Rectangular(rows) && r < |rows|
    ensures FirstLine(cw, layout, rows, r) + |RowLines(cw, layout, rows, r)| <= |Printed(cw, layout, rows)|
    ensures Printed(cw, layout, rows)[FirstLine(cw, layout, rows, r)..][..|RowLines(cw, layout, rows, r)|]
            == RowLines(cw, layout, rows, r)
    ensures |RowLines(cw, layout, rows, 0)| < |Printed(cw, layout, rows)|
    ensures Printed(cw, layout, rows)[|RowLines(cw, layout, rows, 0)|]
            == HeaderRule(layout, Resolved(layout, ColWidths(cw, rows)))
    ensures |Printed(cw, layout, rows)| == FirstLine(cw, layout, rows, |rows|)
  {
    hide RenderRow, Resolved, WrapColumn, ColWidths, HeaderRule, FirstLine, Body;
    LinesFromRow(cw, layout, rows, |rows|);
    NoBodyLeft(cw, layout, rows);
    if r > 0 {
      LinesFromRow(cw, layout, rows, r);
      BodySplits(cw, layout, rows, r);
    } else {
      FirstIsZero(cw, layout, rows);
    }
  }

  lemma NoBodyLeft(cw: CharWidth, layout: Layout, rows: seq<Row>)
    requires Rectangular(rows)
    ensures BodyFrom(cw, layout, rows, |rows|) == []
  {
    assert rows[|rows|..] == [];
  }

  lemma FirstIsZero(cw: CharWidth, layout: Layout, rows: seq<Row>)
    requires Rectangular(rows)
    ensures FirstLine(cw, layout, rows, 0) == 0
  {
  }

  // ---------------------------------------------------------------- columns stand one below the other

  /** n copies of s, one after the other. */
  lemma {:induction false} RepeatAdds(s: string, m: nat, n: nat)
    ensures Repeat(s, 1) == s && Repeat(s, m + n) == Repeat(s, m) + Repeat(s, n)
  {
    assert Repeat(s, 1) == s + Repeat(s, 0) == s;
    if m > 0 {
      RepeatAdds(s, m - 1, n);
      assert s + (Repeat(s, m - 1) + Repeat(s, n)) == (s + Repeat(s, m - 1)) + Repeat(s, n);
    } else {
      assert Repeat(s, 0) + Repeat(s, n) == Repeat(s, n);
    }
  }

  /** What precedes part i in the joined text. */
  function Lead(sep: string, parts: seq<string>, i: nat): string
    requires i <= |parts|
  {
    if i == 0 then "" else parts[0] + sep + Lead(sep, parts[1..], i - 1)
  }

  lemma {:induction false} JoinAt(sep: string, parts: seq<string>, i: nat) returns (rest: string)
    requires i < |parts|
    ensures Join(sep, parts) == Lead(sep, parts, i) + parts[i] + rest
  {
    if i > 0 {
      rest := JoinAt(sep, parts[1..], i - 1);
      var lead, tail := Lead(sep, parts[1..], i - 1), parts[i] + rest;
      assert lead + parts[i] + rest == lead + tail;
      assert parts[0] + sep + (lead + tail) == (parts[0] + sep + lead) + tail;
      assert Join(sep, parts) == (parts[0] + sep + lead) + tail;
      assert (parts[0] + sep + lead) + (parts[i] + rest) == Lead(sep, parts, i) + parts[i] + rest;
    } else {
      rest := if |parts| == 1 then "" else sep + Join(sep, parts[1..]);
      assert |parts| > 1 ==> parts[0] + sep + Join(sep, parts[1..]) == parts[0] + rest;
      assert "" + parts[0] == parts[0] && parts[0] + "" == parts[0];
    }
  }

  lemma {:induction false} LeadWidth(cw: CharWidth, sep: string, parts: seq<string>, widths: seq<int>, i: nat)
    requires i <= |parts| == |widths| && forall j :: 0 <= j < i ==> Width(cw, parts[j]) == widths[j]
    ensures Width(cw, Lead(sep, parts, i)) == Width(cw, sep) * i + Sum(widths[..i])
  {
    if i > 0 {
      LeadWidth(cw, sep, parts[1..], widths[1..], i - 1);
      assert widths[..i][0] == widths[0] && widths[..i][1..] == widths[1..][..i - 1];
      WidthConcat(cw, parts[0] + sep, Lead(sep, parts[1..], i - 1));
      WidthConcat(cw, parts[0], sep);
      assert Width(cw, sep) * i == Width(cw, sep) + Width(cw, sep) * (i - 1);
    }
  }

  /** Where column i begins. */
  function ColumnStart(layout: Layout, widths: seq<int>, i: nat): int
    requires i <= |widths|
  {
    Max(layout.indent, 0) + Max(layout.gap, 0) * i + Sum(Clipped(widths)[..i])
  }

  /** The line shows `text` from the display column `start` on. */
  ghost predicate ShowsAt(cw: CharWidth, line: string, text: string, start: int) {
    exists before, after :: Split3(line, before, text, after) && Width(cw, before) == start
  }

  predicate Split3(line: string, before: string, text: string, after: string) {
    line == before + text + after
  }

  lemma PartShows(cw: CharWidth, layout: Layout, parts: seq<string>, widths: seq<int>, i: nat)
    requires cw(' ') == 1 && i < |parts| == |widths|
    requires forall j :: 0 <= j < i ==> Width(cw, parts[j]) == Clipped(widths)[j]
    ensures ShowsAt(cw, Spaces(layout.indent) + Join(Spaces(layout.gap), parts), parts[i],
                    ColumnStart(layout, widths, i))
  {
    hide Join, Spaces, Width, Sum, Lead;
    var sep, indent := Spaces(layout.gap), Spaces(layout.indent);
    var rest := JoinAt(sep, parts, i);
    var lead := Lead(sep, parts, i);
    LeadWidth(cw, sep, parts, Clipped(widths), i);
    SpaceWidth(cw, layout.gap);
    SpaceWidth(cw, layout.indent);
    WidthConcat(cw, indent, lead);
    assert indent + (lead + parts[i] + rest) == (indent + lead) + parts[i] + rest;
    assert Split3(indent + Join(sep, parts), indent + lead, parts[i], rest);
  }

  lemma ShowsPrefix(cw: CharWidth, line: string, text: string, fill: string, start: int)
    requires ShowsAt(cw, line, text + fill, start)
    ensures ShowsAt(cw, line, text, start)
  {
    var before, after :| Split3(line, before, text + fill, after) && Width(cw, before) == start;
    assert before + (text + fill) + after == before + text + (fill + after);
    assert Split3(line, before, text, fill + after);
  }

  /**
   * If the wrapped column fits, every line of every row shows the k-th lines of its cells, each from the start of its
   * column on, and the rule under the header shows each column's rule there too.
   */
  lemma ColumnsAlign(cw: CharWidth, layout: Layout, rows: seq<Row>, r: nat, k: nat, i: nat)
    requires cw(' ') == 1 && Width(cw, layout.rule) == 1 && Rectangular(rows) && WrapFits(cw, layout, rows)
    requires r < |rows| && i < |rows[0]|
    ensures
      var before := ColWidths(cw, rows);
      var widths, column := Resolved(layout, before), WrapColumn(layout, before);
      var start := ColumnStart(layout, widths, i);
      var lines := if column == Some(i) then WrapCell(cw, rows[r][i], widths[i]) else [rows[r][i]];
      && (k < |lines| ==>
            && k < |RenderRow(cw, layout, rows[r], widths, column)|
            && ShowsAt(cw, RenderRow(cw, layout, rows[r], widths, column)[k], lines[k], start))
      && ShowsAt(cw, HeaderRule(layout, widths), Repeat(layout.rule, widths[i]), start)
  {
    hide WrapFits, Resolved, WrapColumn, ColWidths, WrapCell, LinesFit, ColumnStart, ShowsAt, Repeat, Join, Pad, Width;
    hide Spaces;
    var widths, column := Resolved(layout, ColWidths(cw, rows)), WrapColumn(layout, ColWidths(cw, rows));
    RuleShows(cw, layout, widths, i);
    var cells := CellLines(cw, rows[r], widths, column);
    if k < |cells[i]| {
      HeightCovers(cells, i);
      forall j | 0 <= j < |cells| ensures LinesFit(cw, cells[j], Max(widths[j], 0)) {
        CellsFit(cw, layout, rows, r, j);
      }
      CellShows(cw, layout, cells, widths, k, i);
    }
  }

  lemma RuleShows(cw: CharWidth, layout: Layout, widths: seq<int>, i: nat)
    requires cw(' ') == 1 && Width(cw, layout.rule) == 1 && i < |widths|
    ensures ShowsAt(cw, HeaderRule(layout, widths), Repeat(layout.rule, widths[i]), ColumnStart(layout, widths, i))
  {
    hide ShowsAt, Join, Spaces, ColumnStart;
    var parts := RuleParts(layout, widths);
    forall j | 0 <= j < |parts| ensures Width(cw, parts[j]) == Clipped(widths)[j] {
      RepeatWidth(cw, layout.rule, widths[j]);
    }
    PartShows(cw, layout, parts, widths, i);
  }

  lemma CellShows(cw: CharWidth, layout: Layout, cells: seq<seq<string>>, widths: seq<int>, k: nat, i: nat)
    requires cw(' ') == 1 && i < |cells| == |widths| && k < |cells[i]|
    requires forall j :: 0 <= j < |cells| ==> LinesFit(cw, cells[j], Max(widths[j], 0))
    ensures ShowsAt(cw, RowLine(cw, layout, cells, widths, k), cells[i][k], ColumnStart(layout, widths, i))
  {
    hide ShowsAt, Join, Spaces, ColumnStart;
    var parts := LineParts(cw, cells, widths, k);
    forall j | 0 <= j < |parts| ensures Width(cw, parts[j]) == Clipped(widths)[j] {
      assert LinesFit(cw, cells[j], Max(widths[j], 0));
      PadWidth(cw, ValueAt(cells[j], k), widths[j]);
    }
    PartShows(cw, layout, parts, widths, i);
    ShowsPrefix(cw, RowLine(cw, layout, cells, widths, k), cells[i][k],
                Spaces(widths[i] - Width(cw, cells[i][k])), ColumnStart(layout, widths, i));
  }

  // ---------------------------------------------------------------- printed lines are physical lines

  lemma {:induction false} JoinPlain(sep: string, parts: seq<string>)
    requires '\n' !in sep && NoNewlines(parts)
    ensures '\n' !in Join(sep, parts)
  {
    if |parts| > 1 {
      JoinPlain(sep, parts[1..]);
    }
  }

  lemma RowPlain(cw: CharWidth, layout: Layout, row: Row, widths: seq<int>, wrapIdx: Option<nat>)
    requires |row| == |widths| && forall i :: 0 <= i < |row| ==> NoNewlines(CellLines(cw, row, widths, wrapIdx)[i])
    ensures NoNewlines(RenderRow(cw, layout, row, widths, wrapIdx))
  {
    var cells := CellLines(cw, row, widths, wrapIdx);
    hide CellLines;
    forall k: nat | k < Height(cells) ensures '\n' !in RowLine(cw, layout, cells, widths, k) {
      var parts := LineParts(cw, cells, widths, k);
      forall i | 0 <= i < |parts| ensures '\n' !in parts[i] {
        assert NoNewlines(cells[i]);
        RepeatNoNewline(" ", widths[i] - Width(cw, ValueAt(cells[i], k)));
      }
      RepeatNoNewline(" ", layout.gap);
      RepeatNoNewline(" ", layout.indent);
      JoinPlain(Spaces(layout.gap), parts);
    }
  }

  /** Outside the wrapped column no cell holds a newline. */
  ghost predicate PlainElsewhere(cw: CharWidth, layout: Layout, rows: seq<Row>)
    requires Rectangular(rows)
  {
    forall k, i :: 0 <= k < |rows| && 0 <= i < |rows[k]| && WrapColumn(layout, ColWidths(cw, rows)) != Some(i) ==>
                     '\n' !in rows[k][i]
  }

  /** A wrapped column has a positive new width; otherwise its cells are not wrapped. */
  ghost predicate WrapsToPositive(cw: CharWidth, layout: Layout, rows: seq<Row>)
    requires Rectangular(rows)
  {
    var i := WrapColumn(layout, ColWidths(cw, rows));
    i.Some? ==> Resolved(layout, ColWidths(cw, rows))[i.value] > 0
  }

  lemma {:induction false} BodyPlain(cw: CharWidth, layout: Layout, rows: seq<Row>, from: nat)
    requires Rectangular(rows) && WrapsToPositive(cw, layout, rows) && PlainElsewhere(cw, layout, rows)
    requires from <= |rows|
    ensures
      var before := ColWidths(cw, rows);
      NoNewlines(Body(cw, layout, rows[from..], Resolved(layout, before), WrapColumn(layout, before)))
    decreases |rows| - from
  {
    if from < |rows| {
      assert rows[from..][1..] == rows[from + 1..] && rows[from..][0] == rows[from];
      BodyPlain(cw, layout, rows, from + 1);
      RowOfTablePlain(cw, layout, rows, from);
      hide RenderRow, WrapsToPositive, PlainElsewhere, Resolved, WrapColumn, ColWidths;
    }
  }

  lemma RowOfTablePlain(cw: CharWidth, layout: Layout, rows: seq<Row>, k: nat)
    requires Rectangular(rows) && WrapsToPositive(cw, layout, rows) && PlainElsewhere(cw, layout, rows)
    requires k < |rows|
    ensures
      var before := ColWidths(cw, rows);
      NoNewlines(RenderRow(cw, layout, rows[k], Resolved(layout, before), WrapColumn(layout, before)))
  {
    var before := ColWidths(cw, rows);
    var widths, wrapIdx := Resolved(layout, before), WrapColumn(layout, before);
    forall i | 0 <= i < |rows[k]| ensures NoNewlines(CellLines(cw, rows[k], widths, wrapIdx)[i]) {
      if wrapIdx == Some(i) {
        WrapCellCorrect(cw, rows[k][i], widths[i]);
        hide WrapCell;
      }
    }
    hide RenderRow, Resolved, WrapColumn, ColWidths;
    RowPlain(cw, layout, rows[k], widths, wrapIdx);
  }

  /** With no newline in a cell of another column or in the rule, the lines print_data joins are the lines one sees. */
  lemma PrintedLinesArePlain(cw: CharWidth, layout: Layout, rows: seq<Row>)
    requires Rectangular(rows) && WrapsToPositive(cw, layout, rows) && PlainElsewhere(cw, layout, rows)
    requires '\n' !in layout.rule
    ensures NoNewlines(Printed(cw, layout, rows))
  {
    var widths := Resolved(layout, ColWidths(cw, rows));
    RowOfTablePlain(cw, layout, rows, 0);
    BodyPlain(cw, layout, rows, 1);
    hide RenderRow, WrapsToPositive, PlainElsewhere, Resolved, WrapColumn, ColWidths;
    forall i | 0 <= i < |widths| ensures '\n' !in RuleParts(layout, widths)[i] {
      RepeatNoNewline(layout.rule, widths[i]);
    }
    RepeatNoNewline(" ", layout.gap);
    RepeatNoNewline(" ", layout.indent);
    JoinPlain(Spaces(layout.gap), RuleParts(layout, widths));
  }
}
