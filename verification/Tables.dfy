/** Column widths, wrapping of the widest column, padding and rendering of text tables. */
module Tables {
  import opened Basics
  import opened Wrapping

  /** The options of a table that matter for its layout. `terminal` is None when no width could be found. */
  datatype Layout = Layout(
    indent: int, gap: int, wrap: bool, wrapCol: Option<int>, minWidth: int, terminal: Option<int>, rule: string)

  type Row = seq<string>

  function Sum(widths: seq<int>): int {
    if widths == [] then 0 else widths[0] + Sum(widths[1..])
  }

  // ---------------------------------------------------------------- rows of one length

  /** _normalize_data on one row: filled up, or cut when that is allowed. */
  function Normalized(row: Row, n: nat, truncate: bool): (r: Option<Row>)
    ensures r.Some? <==> |row| <= n || truncate
    ensures r.Some? ==> |r.value| == n && forall i :: 0 <= i < n ==> r.value[i] == if i < |row| then row[i] else ""
  {
    if |row| <= n then Some(row + seq(n - |row|, _ => "")) else if truncate then Some(row[..n]) else None
  }

  ghost predicate Rectangular(rows: seq<Row>) {
    rows != [] && forall k :: 0 <= k < |rows| ==> |rows[k]| == |rows[0]|
  }

  function LongestRow(data: seq<Row>): (n: nat)
    ensures forall k :: 0 <= k < |data| ==> |data[k]| <= n
    ensures data != [] ==> exists k :: 0 <= k < |data| && |data[k]| == n
  {
    if data == [] then 0
    else
      var n := LongestRow(data[..|data| - 1]);
      if |data[|data| - 1]| > n || |data| == 1 then |data[|data| - 1]| else n
  }

  /** The header, or for want of one as many empty cells as the longest row has. */
  function HeaderFor(header: Row, data: seq<Row>): Row {
    if header == [] && data != [] then seq(LongestRow(data), _ => "") else header
  }

  /**
   * _normalize_data: every row brought to the header's length; None stands for the ValueError of a row that is too
   * long and may not be cut, which cannot happen without a header.
   */
  method NormalizeData(header: Row, data: seq<Row>, truncate: bool) returns (rows: Option<seq<Row>>)
    ensures rows.None? <==> !truncate && header != [] && exists k :: 0 <= k < |data| && |data[k]| > |header|
    ensures rows.Some? ==>
              && |rows.value| == |data| + 1 && rows.value[0] == HeaderFor(header, data) && Rectangular(rows.value)
              && forall k, i :: 0 <= k < |data| && 0 <= i < |rows.value[0]| ==>
                   rows.value[k + 1][i] == if i < |data[k]| then data[k][i] else ""
    ensures rows.Some? && header != [] ==> rows.value[0] == header
    ensures rows.Some? && header == [] ==>
              && (forall k :: 0 <= k < |data| ==> |data[k]| <= |rows.value[0]|)
              && (data == [] ==> rows.value[0] == [])
              && (data != [] ==> exists k :: 0 <= k < |data| && |data[k]| == |rows.value[0]|)
              && forall i :: 0 <= i < |rows.value[0]| ==> rows.value[0][i] == ""
  {
    var top := HeaderFor(header, data);
    var result := [top];
    for k := 0 to |data|
      invariant |result| == k + 1 && result[0] == top
      invariant forall j :: 0 <= j < k ==> Normalized(data[j], |top|, truncate) == Some(result[j + 1])
    {
      var row := Normalized(data[k], |top|, truncate);
      if row.None? {
        return None;
      }
      result := result + [row.value];
    }
    rows := Some(result);
    forall j | 0 <= j < |result| ensures |result[j]| == |result[0]| {
      if j > 0 { assert Normalized(data[j - 1], |top|, truncate) == Some(result[j - 1 + 1]); }
    }
    forall k, i | 0 <= k < |data| && 0 <= i < |top|
      ensures result[k + 1][i] == if i < |data[k]| then data[k][i] else ""
    {
      assert Normalized(data[k], |top|, truncate) == Some(result[k + 1]);
    }
    forall k | 0 <= k < |data| ensures truncate || |data[k]| <= |top| {
      assert Normalized(data[k], |top|, truncate) == Some(result[k + 1]);
    }
  }

  // ---------------------------------------------------------------- column widths

  /** The widest of the first k cells of column i. */
  function ColWidth(cw: CharWidth, rows: seq<Row>, i: nat, k: nat): nat
    requires Rectangular(rows) && i < |rows[0]| && k <= |rows|
  {
    if k == 0 then 0 else
      var w := Width(cw, rows[k - 1][i]);
      var before := ColWidth(cw, rows, i, k - 1);
      if w > before then w else before
  }

  function ColWidths(cw: CharWidth, rows: seq<Row>): (widths: seq<int>)
    requires Rectangular(rows)
    ensures |widths| == |rows[0]|
  {
    seq(|rows[0]|, i requires 0 <= i < |rows[0]| => ColWidth(cw, rows, i, |rows|))
  }

  lemma {:induction false} CellNoWider(cw: CharWidth, rows: seq<Row>, i: nat, k: nat, upTo: nat)
    requires Rectangular(rows) && i < |rows[0]| && k < upTo <= |rows|
    ensures Width(cw, rows[k][i]) <= ColWidth(cw, rows, i, upTo)
  {
    if k < upTo - 1 { CellNoWider(cw, rows, i, k, upTo - 1); }
  }

  lemma {:induction false} WidthIsSomeCells(cw: CharWidth, rows: seq<Row>, i: nat, upTo: nat)
    requires Rectangular(rows) && i < |rows[0]| && upTo <= |rows|
    ensures
      || ColWidth(cw, rows, i, upTo) == 0
      || exists k :: 0 <= k < upTo && Width(cw, rows[k][i]) == ColWidth(cw, rows, i, upTo)
  {
    if upTo > 0 && Width(cw, rows[upTo - 1][i]) <= ColWidth(cw, rows, i, upTo - 1) {
      WidthIsSomeCells(cw, rows, i, upTo - 1);
    }
  }

  /** _compute_col_widths, widening the columns row by row. */
  method ComputeColWidths(cw: CharWidth, rows: seq<Row>) returns (widths: array<int>)
    requires Rectangular(rows)
    ensures fresh(widths) && widths[..] == ColWidths(cw, rows)
  {
    var n := |rows[0]|;
    widths := new int[n](_ => 0);
    for k := 0 to |rows|
      invariant forall i :: 0 <= i < n ==> widths[i] == ColWidth(cw, rows, i, k)
    {
      for i := 0 to n
        invariant forall j :: 0 <= j < n ==> widths[j] == ColWidth(cw, rows, j, if j < i then k + 1 else k)
      {
        var w := Width(cw, rows[k][i]);
        if w > widths[i] {
          widths[i] := w;
        }
      }
    }
  }

  // ---------------------------------------------------------------- which column wraps, and how wide it becomes

  /** col_widths.index(max(col_widths)). */
  function Widest(widths: seq<int>): (i: nat)
    requires widths != []
    ensures i < |widths| && (forall j :: 0 <= j < |widths| ==> widths[j] <= widths[i])
    ensures forall j :: 0 <= j < i ==> widths[j] < widths[i]
  {
    if |widths| == 1 then 0
    else
      var i := Widest(widths[..|widths| - 1]);
      if widths[|widths| - 1] > widths[i] then |widths| - 1 else i
  }

  /** The separators' share of a line. */
  function Gaps(layout: Layout, n: nat): int {
    layout.gap * Max(0, n - 1)
  }

  function Available(layout: Layout, widths: seq<int>, i: nat): int
    requires i < |widths| && layout.terminal.Some?
  {
    layout.terminal.value - layout.indent - Gaps(layout, |widths|) - (Sum(widths) - widths[i])
  }

  /** The wrapped column, if any: the table is too wide, the column exists, and its new width is smaller. */
  function WrapColumn(layout: Layout, widths: seq<int>): (i: Option<nat>)
    ensures i.Some? ==> i.value < |widths| && layout.terminal.Some?
  {
    if !layout.wrap || widths == [] || layout.terminal.None? then None
    else if layout.indent + Gaps(layout, |widths|) + Sum(widths) <= layout.terminal.value then None
    else
      var i := if layout.wrapCol.Some? then layout.wrapCol.value else Widest(widths);
      if i < 0 || i >= |widths| then None
      else if Max(layout.minWidth, Available(layout, widths, i)) >= widths[i] then None
      else Some(i)
  }

  function Resolved(layout: Layout, widths: seq<int>): (result: seq<int>)
    ensures |result| == |widths|
  {
    var i := WrapColumn(layout, widths);
    if i.None? then widths
    else widths[i.value := Max(layout.minWidth, Available(layout, widths, i.value))]
  }

  /** Column i wraps if and only if wrapping is on, the table is too wide, i is the column to wrap, and it narrows. */
  lemma WrapsExactly(layout: Layout, widths: seq<int>, i: nat)
    ensures WrapColumn(layout, widths) == Some(i) <==>
            && layout.wrap && layout.terminal.Some? && i < |widths|
            && layout.indent + layout.gap * (|widths| - 1) + Sum(widths) > layout.terminal.value
            && layout.minWidth < widths[i]
            && (if layout.wrapCol.Some? then layout.wrapCol.value == i
                else (forall j :: 0 <= j < |widths| ==> widths[j] <= widths[i])
                     && forall j :: 0 <= j < i ==> widths[j] < widths[i])
    ensures WrapColumn(layout, widths) == Some(i) ==>
              var left := layout.terminal.value - layout.indent - layout.gap * (|widths| - 1)
                          - (Sum(widths) - widths[i]);
              Resolved(layout, widths) == widths[i := if left > layout.minWidth then left else layout.minWidth]
    ensures WrapColumn(layout, widths) == None ==> Resolved(layout, widths) == widths
  {
    hide Sum;
  }

  method SumOf(a: array<int>) returns (total: int)
    ensures total == Sum(a[..])
  {
    total := 0;
    for i := 0 to a.Length
      invariant total + Sum(a[i..]) == Sum(a[..])
    {
      assert a[i..][1..] == a[i + 1..];
      total := total + a[i];
    }
  }

  /** _resolve_wrap: narrows one column in place. */
  method ResolveWrap(layout: Layout, widths: array<int>) returns (wrapIdx: Option<nat>)
    modifies widths
    ensures wrapIdx == WrapColumn(layout, old(widths[..]))
    ensures widths[..] == Resolved(layout, old(widths[..]))
  {
    if !layout.wrap || widths.Length == 0 || layout.terminal.None? {
      return None;
    }
    var gaps := layout.gap * Max(0, widths.Length - 1);
    var all := SumOf(widths);
    if layout.indent + gaps + all <= layout.terminal.value {
      return None;
    }
    var i := if layout.wrapCol.Some? then layout.wrapCol.value else Widest(widths[..]);
    if i < 0 || i >= widths.Length {
      return None;
    }
    var available := layout.terminal.value - layout.indent - gaps - (all - widths[i]);
    var target := Max(layout.minWidth, available);
    if target >= widths[i] {
      return None;
    }
    widths[i] := target;
    return Some(i);
  }

  lemma {:induction false} SumUpdate(widths: seq<int>, i: nat, w: int)
    requires i < |widths|
    ensures Sum(widths[i := w]) == Sum(widths) - widths[i] + w
  {
    if i == 0 {
      assert widths[i := w][1..] == widths[1..];
    } else {
      assert widths[i := w][1..] == widths[1..][i - 1 := w];
      SumUpdate(widths[1..], i - 1, w);
    }
  }

  /** The width of a line whose cells all fill their columns. */
  function TableWidth(layout: Layout, widths: seq<int>): int {
    layout.indent + Gaps(layout, |widths|) + Sum(widths)
  }

  /**
   * Wrapping narrows the table, never below the terminal; it meets the terminal exactly iff what was left for the
   * wrapped column is at least its minimum width. A table that fits is left alone.
   */
  lemma WrappedTableFillsTerminal(layout: Layout, widths: seq<int>)
    ensures layout.terminal.Some? && TableWidth(layout, widths) <= layout.terminal.value ==>
              Resolved(layout, widths) == widths
    ensures
      var i := WrapColumn(layout, widths);
      if i.None? then Resolved(layout, widths) == widths
      else
        && layout.terminal.value <= TableWidth(layout, Resolved(layout, widths)) < TableWidth(layout, widths)
        && (TableWidth(layout, Resolved(layout, widths)) == layout.terminal.value
            <==> Available(layout, widths, i.value) >= layout.minWidth)
  {
    var i := WrapColumn(layout, widths);
    if i.Some? {
      SumUpdate(widths, i.value, Max(layout.minWidth, Available(layout, widths, i.value)));
    }
  }
}
