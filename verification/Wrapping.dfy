/** Greedy line breaking over additive, non-negative character widths. */
module Wrapping {
  /** How many columns a character takes. */
  type CharWidth = char -> nat

  function Width(cw: CharWidth, s: string): nat {
    if s == "" then 0 else cw(s[0]) + Width(cw, s[1..])
  }

  lemma {:induction false} WidthConcat(cw: CharWidth, a: string, b: string)
    ensures Width(cw, a + b) == Width(cw, a) + Width(cw, b)
  {
    if a == "" {
      assert a + b == b;
    } else {
      assert (a + b)[1..] == a[1..] + b;
      WidthConcat(cw, a[1..], b);
    }
  }

  lemma WidthSnoc(cw: CharWidth, a: string, c: char)
    ensures Width(cw, a + [c]) == Width(cw, a) + cw(c)
  {
    WidthConcat(cw, a, [c]);
    assert [c][1..] == "";
  }

  function Concat(lines: seq<string>): string {
    if lines == [] then "" else lines[0] + Concat(lines[1..])
  }

  lemma {:induction false} ConcatConcat(a: seq<string>, b: seq<string>)
    ensures Concat(a + b) == Concat(a) + Concat(b)
  {
    if a == [] {
      assert a + b == b;
    } else {
      assert (a + b)[1..] == a[1..] + b;
      ConcatConcat(a[1..], b);
      assert a[0] + (Concat(a[1..]) + Concat(b)) == (a[0] + Concat(a[1..])) + Concat(b);
    }
  }

  /** What greedy breaking makes of `rest` when the current line already holds `current`. */
  function Breaks(cw: CharWidth, width: int, current: string, rest: string): (lines: seq<string>)
    ensures lines != []
    decreases |rest|
  {
    if rest == "" then [current]
    else if current != "" && Width(cw, current) + cw(rest[0]) > width then
      [current] + Breaks(cw, width, [rest[0]], rest[1..])
    else Breaks(cw, width, current + [rest[0]], rest[1..])
  }

  function WrapSegment(cw: CharWidth, text: string, width: int): seq<string> {
    Breaks(cw, width, "", text)
  }

  /** _wrap_segment: one pass, breaking before the first character that no longer fits. */
  method WrapSegmentLoop(cw: CharWidth, text: string, width: int) returns (lines: seq<string>)
    ensures lines == WrapSegment(cw, text, width)
  {
    if text == "" {
      return [""];
    }
    lines := [];
    var current, currentWidth := "", 0;
    for i := 0 to |text|
      invariant currentWidth == Width(cw, current)
      invariant i > 0 ==> current != ""
      invariant lines + Breaks(cw, width, current, text[i..]) == WrapSegment(cw, text, width)
    {
      var ch := text[i];
      var chWidth := cw(ch);
      assert text[i..][0] == ch && text[i..][1..] == text[i + 1..];
      WidthSnoc(cw, current, ch);
      WidthSnoc(cw, "", ch);
      assert "" + [ch] == [ch];
      if current != "" && currentWidth + chWidth > width {
        lines := lines + [current];
        current, currentWidth := [ch], chWidth;
      } else {
        current, currentWidth := current + [ch], currentWidth + chWidth;
      }
    }
    if current != "" || lines == [] {
      lines := lines + [current];
    }
  }

  // ---------------------------------------------------------------- lossless, fitting

  lemma {:induction false} BreaksLosesNothing(cw: CharWidth, width: int, current: string, rest: string)
    ensures Concat(Breaks(cw, width, current, rest)) == current + rest
    decreases |rest|
  {
    if rest == "" {
      assert Concat([current]) == current + "";
    } else {
      assert rest == [rest[0]] + rest[1..];
      if current != "" && Width(cw, current) + cw(rest[0]) > width {
        var tail := Breaks(cw, width, [rest[0]], rest[1..]);
        BreaksLosesNothing(cw, width, [rest[0]], rest[1..]);
        assert ([current] + tail)[1..] == tail;
      } else {
        BreaksLosesNothing(cw, width, current + [rest[0]], rest[1..]);
        assert (current + [rest[0]]) + rest[1..] == current + rest;
      }
    }
  }

  ghost predicate CharsFit(cw: CharWidth, s: string, width: int) {
    forall i :: 0 <= i < |s| ==> cw(s[i]) <= width
  }

  ghost predicate LinesFit(cw: CharWidth, lines: seq<string>, width: int) {
    forall i :: 0 <= i < |lines| ==> Width(cw, lines[i]) <= width
  }

  lemma {:induction false} BreaksFits(cw: CharWidth, width: int, current: string, rest: string)
    requires CharsFit(cw, rest, width) && Width(cw, current) <= width
    ensures LinesFit(cw, Breaks(cw, width, current, rest), width)
    decreases |rest|
  {
    if rest != "" {
      var c := rest[0];
      WidthSnoc(cw, current, c);
      WidthSnoc(cw, "", c);
      assert "" + [c] == [c];
      if current != "" && Width(cw, current) + cw(c) > width {
        BreaksFits(cw, width, [c], rest[1..]);
      } else {
        BreaksFits(cw, width, current + [c], rest[1..]);
      }
    }
  }

  // ---------------------------------------------------------------- optimal

  /** A fitting run of characters is all taken into the current line. */
  lemma {:induction false} FittingRunIsTaken(cw: CharWidth, width: int, current: string, run: string, rest: string)
    requires Width(cw, current + run) <= width
    ensures Breaks(cw, width, current, run + rest) == Breaks(cw, width, current + run, rest)
    decreases |run|
  {
    if run == "" {
      assert run + rest == rest && current + run == current;
    } else {
      var c := run[0];
      assert (run + rest)[0] == c && (run + rest)[1..] == run[1..] + rest;
      assert current + run == (current + [c]) + run[1..];
      WidthSnoc(cw, current, c);
      WidthConcat(cw, current + [c], run[1..]);
      FittingRunIsTaken(cw, width, current + [c], run[1..], rest);
    }
  }

  /** Starting with less on the current line never takes more lines, and saves at most one. */
  lemma {:induction false} LessIsNoWorse(cw: CharWidth, width: int, less: string, more: string, rest: string)
    requires more != "" && Width(cw, less) <= Width(cw, more)
    ensures |Breaks(cw, width, less, rest)| <= |Breaks(cw, width, more, rest)|
    ensures |Breaks(cw, width, more, rest)| <= |Breaks(cw, width, less, rest)| + 1
    decreases |rest|
  {
    if rest != "" {
      var c, tail := rest[0], rest[1..];
      WidthSnoc(cw, less, c);
      WidthSnoc(cw, more, c);
      WidthSnoc(cw, "", c);
      assert "" + [c] == [c];
      if Width(cw, more) + cw(c) <= width {
        LessIsNoWorse(cw, width, less + [c], more + [c], tail);
      } else if less == "" || Width(cw, less) + cw(c) <= width {
        LessIsNoWorse(cw, width, [c], less + [c], tail);
      }
    }
  }

  /** No division of a non-empty text into fitting lines uses fewer lines. */
  lemma {:induction false} GreedyIsOptimal(cw: CharWidth, text: string, width: int, parts: seq<string>)
    requires text != "" && Concat(parts) == text && LinesFit(cw, parts, width)
    ensures |WrapSegment(cw, text, width)| <= |parts|
    decreases |parts|
  {
    var first, rest := parts[0], Concat(parts[1..]);
    assert LinesFit(cw, parts[1..], width);
    assert "" + first == first && first + "" == first;
    FittingRunIsTaken(cw, width, "", first, rest);
    if rest != "" {
      GreedyIsOptimal(cw, rest, width, parts[1..]);
      if first != "" {
        LessIsNoWorse(cw, width, "", first, rest);
      }
    }
  }

  lemma {:induction false} CharNoWider(cw: CharWidth, s: string, i: nat)
    requires i < |s|
    ensures cw(s[i]) <= Width(cw, s)
  {
    if i > 0 { CharNoWider(cw, s[1..], i - 1); }
  }

  lemma {:induction false} CharsOfFittingLinesFit(cw: CharWidth, lines: seq<string>, width: int)
    requires LinesFit(cw, lines, width)
    ensures CharsFit(cw, Concat(lines), width)
  {
    if lines != [] {
      var tail := Concat(lines[1..]);
      CharsOfFittingLinesFit(cw, lines[1..], width);
      forall i | 0 <= i < |lines[0] + tail| ensures cw((lines[0] + tail)[i]) <= width {
        if i < |lines[0]| {
          CharNoWider(cw, lines[0], i);
        } else {
          assert (lines[0] + tail)[i] == tail[i - |lines[0]|];
        }
      }
    }
  }

  /** The wrapping of a segment: nothing lost, every line fits iff every character does, and no fewer lines would do. */
  lemma WrapSegmentCorrect(cw: CharWidth, text: string, width: int)
    ensures Concat(WrapSegment(cw, text, width)) == text
    ensures width >= 0 ==> (LinesFit(cw, WrapSegment(cw, text, width), width) <==> CharsFit(cw, text, width))
    ensures forall parts :: text != "" && Concat(parts) == text && LinesFit(cw, parts, width) ==>
                              |WrapSegment(cw, text, width)| <= |parts|
  {
    BreaksLosesNothing(cw, width, "", text);
    var lines := WrapSegment(cw, text, width);
    if LinesFit(cw, lines, width) {
      CharsOfFittingLinesFit(cw, lines, width);
    }
    if CharsFit(cw, text, width) && width >= 0 {
      BreaksFits(cw, width, "", text);
    }
    forall parts | text != "" && Concat(parts) == text && LinesFit(cw, parts, width)
      ensures |WrapSegment(cw, text, width)| <= |parts|
    {
      GreedyIsOptimal(cw, text, width, parts);
    }
  }

  // ---------------------------------------------------------------- cells of several lines

  /** str.split on the newline. */
  function Split(text: string): (parts: seq<string>)
    ensures parts != []
  {
    if text == "" then [""]
    else
      var parts := Split(text[1..]);
      if text[0] == '\n' then [""] + parts else [[text[0]] + parts[0]] + parts[1..]
  }

  function WithoutNewlines(text: string): string {
    if text == "" then "" else (if text[0] == '\n' then "" else [text[0]]) + WithoutNewlines(text[1..])
  }

  /** Each part wrapped, with an empty line after every part but the last. */
  function WrapParts(cw: CharWidth, parts: seq<string>, width: int): seq<string> {
    if parts == [] then []
    else WrapSegment(cw, parts[0], width) + (if |parts| > 1 then [""] else []) + WrapParts(cw, parts[1..], width)
  }

  function WrapCell(cw: CharWidth, text: string, width: int): seq<string> {
    if width <= 0 then [text] else WrapParts(cw, Split(text), width)
  }

  method WrapCellLoop(cw: CharWidth, text: string, width: int) returns (lines: seq<string>)
    ensures lines == WrapCell(cw, text, width)
  {
    if width <= 0 {
      return [text];
    }
    hide WrapParts, WrapSegment, Split;
    lines := [];
    var parts := Split(text);
    for i := 0 to |parts|
      invariant lines + WrapParts(cw, parts[i..], width) == WrapParts(cw, parts, width)
    {
      var wrapped := WrapSegmentLoop(cw, parts[i], width);
      WrapPartsStep(cw, lines, parts, i, width);
      lines := lines + wrapped;
      if i < |parts| - 1 {
        lines := lines + [""];
      }
    }
    NoPartsNoLines(cw, width);
  }

  lemma WrapPartsStep(cw: CharWidth, lines: seq<string>, parts: seq<string>, i: nat, width: int)
    requires i < |parts|
    ensures var wrapped := lines + WrapSegment(cw, parts[i], width);
            lines + WrapParts(cw, parts[i..], width)
            == (if i < |parts| - 1 then wrapped + [""] else wrapped) + WrapParts(cw, parts[i + 1..], width)
  {
    hide WrapSegment;
    assert parts[i..][0] == parts[i] && parts[i..][1..] == parts[i + 1..];
    Regroup(lines, WrapSegment(cw, parts[i], width), if i < |parts| - 1 then [""] else [],
            WrapParts(cw, parts[i + 1..], width));
  }

  lemma Regroup(a: seq<string>, b: seq<string>, c: seq<string>, d: seq<string>)
    ensures a + (b + c + d) == ((a + b) + c) + d && a + b + [] == a + b
  {
  }

  lemma NoPartsNoLines(cw: CharWidth, width: int)
    ensures WrapParts(cw, [], width) == []
  {
  }

  lemma {:induction false} SplitLosesNewlinesOnly(text: string)
    ensures Concat(Split(text)) == WithoutNewlines(text)
  {
    if text != "" {
      SplitLosesNewlinesOnly(text[1..]);
      var parts := Split(text[1..]);
      if text[0] == '\n' {
        assert Split(text)[1..] == parts;
      } else {
        assert Split(text)[1..] == parts[1..];
        assert [text[0]] + (parts[0] + Concat(parts[1..])) == ([text[0]] + parts[0]) + Concat(parts[1..]);
      }
    }
  }

  lemma {:induction false} WithoutNewlinesChars(text: string, c: char)
    ensures c in WithoutNewlines(text) <==> c in text && c != '\n'
  {
    if text != "" {
      WithoutNewlinesChars(text[1..], c);
      assert c in text <==> c == text[0] || c in text[1..];
    }
  }

  lemma {:induction false} LineOfConcat(lines: seq<string>, i: nat, c: char)
    requires i < |lines| && c in lines[i]
    ensures c in Concat(lines)
  {
    if i > 0 { LineOfConcat(lines[1..], i - 1, c); }
  }

  ghost predicate NoNewlines(lines: seq<string>) {
    forall i :: 0 <= i < |lines| ==> '\n' !in lines[i]
  }

  lemma SegmentLines(cw: CharWidth, part: string, width: int)
    requires width > 0 && '\n' !in part
    ensures Concat(WrapSegment(cw, part, width)) == part && NoNewlines(WrapSegment(cw, part, width))
    ensures LinesFit(cw, WrapSegment(cw, part, width), width) <==> CharsFit(cw, part, width)
  {
    WrapSegmentCorrect(cw, part, width);
    var lines := WrapSegment(cw, part, width);
    hide WrapSegment;
    forall i | 0 <= i < |lines| ensures '\n' !in lines[i] {
      if '\n' in lines[i] { LineOfConcat(lines, i, '\n'); }
    }
  }

  lemma {:induction false} WrapPartsLines(cw: CharWidth, parts: seq<string>, width: int)
    requires width > 0 && NoNewlines(parts)
    ensures Concat(WrapParts(cw, parts, width)) == Concat(parts) && NoNewlines(WrapParts(cw, parts, width))
    ensures CharsFit(cw, Concat(parts), width) ==> LinesFit(cw, WrapParts(cw, parts, width), width)
  {
    hide WrapSegment, CharsFit, LinesFit;
    if parts != [] {
      WrapPartsLines(cw, parts[1..], width);
      SegmentLines(cw, parts[0], width);
      PartsJoin(cw, WrapSegment(cw, parts[0], width), |parts| > 1, WrapParts(cw, parts[1..], width), width);
      CharsOfBoth(cw, parts[0], Concat(parts[1..]), width);
    } else {
      assert LinesFit(cw, [], width) by { NothingFits(cw, width); }
    }
  }

  lemma NothingFits(cw: CharWidth, width: int)
    ensures LinesFit(cw, [], width)
  {
  }

  /** An empty line between two groups adds nothing to their text. */
  lemma PartsJoin(cw: CharWidth, head: seq<string>, between: bool, tail: seq<string>, width: int)
    requires width > 0 && NoNewlines(head) && NoNewlines(tail)
    ensures var lines := head + (if between then [""] else []) + tail;
            && Concat(lines) == Concat(head) + Concat(tail) && NoNewlines(lines)
            && (LinesFit(cw, head, width) && LinesFit(cw, tail, width) ==> LinesFit(cw, lines, width))
  {
    hide Concat, Width;
    var gap := if between then [""] else [];
    GapIsNothing(head, gap);
    ConcatConcat(head + gap, tail);
    EmptyFits(cw);
  }

  lemma GapIsNothing(head: seq<string>, gap: seq<string>)
    requires gap in {[], [""]}
    ensures Concat(head + gap) == Concat(head)
  {
    ConcatConcat(head, gap);
    assert Concat(gap) == "";
    assert Concat(head) + "" == Concat(head);
  }

  lemma EmptyFits(cw: CharWidth)
    ensures Width(cw, "") == 0
  {
  }

  lemma CharsOfBoth(cw: CharWidth, a: string, b: string, width: int)
    ensures CharsFit(cw, a + b, width) <==> CharsFit(cw, a, width) && CharsFit(cw, b, width)
  {
    if CharsFit(cw, a + b, width) {
      assert forall i :: 0 <= i < |a| ==> a[i] == (a + b)[i];
      assert forall i :: 0 <= i < |b| ==> b[i] == (a + b)[|a| + i];
    }
  }

  /** A wrapped cell loses its newlines and no more, and its lines fit if and only if every other character does. */
  lemma WrapCellCorrect(cw: CharWidth, text: string, width: int)
    requires width > 0
    ensures Concat(WrapCell(cw, text, width)) == WithoutNewlines(text) && NoNewlines(WrapCell(cw, text, width))
    ensures LinesFit(cw, WrapCell(cw, text, width), width) <==> CharsFit(cw, WithoutNewlines(text), width)
  {
    hide WrapParts, WithoutNewlines, Split;
    SplitLosesNewlinesOnly(text);
    var parts := Split(text);
    forall i | 0 <= i < |parts| ensures '\n' !in parts[i] {
      if '\n' in parts[i] {
        LineOfConcat(parts, i, '\n');
        WithoutNewlinesChars(text, '\n');
      }
    }
    WrapPartsLines(cw, parts, width);
    if LinesFit(cw, WrapCell(cw, text, width), width) {
      CharsOfFittingLinesFit(cw, WrapCell(cw, text, width), width);
    }
  }

  // ---------------------------------------------------------------- where lines end

  /** A line is broken off only before a character that no longer fits on it. */
  ghost predicate FullLines(cw: CharWidth, lines: seq<string>, width: int) {
    forall i :: 0 < i < |lines| ==> FullBefore(cw, lines[i - 1], lines[i], width)
  }

  predicate FullBefore(cw: CharWidth, line: string, next: string, width: int) {
    next != "" && Width(cw, line) + cw(next[0]) > width
  }

  lemma {:induction false} BreaksAreFull(cw: CharWidth, width: int, current: string, rest: string)
    ensures FullLines(cw, Breaks(cw, width, current, rest), width) && current <= Breaks(cw, width, current, rest)[0]
    decreases |rest|
  {
    hide Width, FullLines;
    if rest == "" {
      OneLineIsFull(cw, current, width);
    } else if current != "" && Width(cw, current) + cw(rest[0]) > width {
      var tail := Breaks(cw, width, [rest[0]], rest[1..]);
      BreaksAreFull(cw, width, [rest[0]], rest[1..]);
      assert tail[0][0] == [rest[0]][0];
      FullLinesCons(cw, current, tail, width);
    } else {
      BreaksAreFull(cw, width, current + [rest[0]], rest[1..]);
    }
  }

  lemma OneLineIsFull(cw: CharWidth, line: string, width: int)
    ensures FullLines(cw, [line], width)
  {
  }

  lemma FullLinesCons(cw: CharWidth, line: string, tail: seq<string>, width: int)
    requires tail != [] && FullLines(cw, tail, width) && FullBefore(cw, line, tail[0], width)
    ensures FullLines(cw, [line] + tail, width)
  {
    hide FullBefore;
    var lines := [line] + tail;
    forall i | 0 < i < |lines| ensures FullBefore(cw, lines[i - 1], lines[i], width) {
      if i > 1 { assert FullBefore(cw, tail[i - 2], tail[i - 1], width); }
    }
  }

  lemma {:induction false} SplitAtNewline(a: string, b: string)
    requires '\n' !in a
    ensures Split(a) == [a] && Split(a + "\n" + b) == [a] + Split(b)
  {
    if a == "" {
      assert ("" + "\n" + b)[1..] == b;
    } else {
      assert (a + "\n" + b)[1..] == a[1..] + "\n" + b && (a + "\n" + b)[0] == a[0];
      SplitAtNewline(a[1..], b);
      assert [a[0]] + a[1..] == a;
    }
  }

  /**
   * A text without newlines is wrapped greedily, every line full; an empty line stands where a newline was. A column
   * without a positive width is left alone.
   */
  lemma WrapCellByParts(cw: CharWidth, a: string, b: string, width: int)
    requires '\n' !in a
    ensures width <= 0 ==> WrapCell(cw, a, width) == [a] && WrapCell(cw, a + "\n" + b, width) == [a + "\n" + b]
    ensures width > 0 ==>
              && WrapCell(cw, a, width) == WrapSegment(cw, a, width)
              && FullLines(cw, WrapCell(cw, a, width), width)
              && WrapCell(cw, a + "\n" + b, width) == WrapCell(cw, a, width) + [""] + WrapCell(cw, b, width)
  {
    hide Split, WrapSegment;
    SplitAtNewline(a, b);
    BreaksAreFull(cw, width, "", a);
    if width > 0 {
      var parts := [a] + Split(b);
      assert parts[1..] == Split(b) && [a][1..] == [];
      assert WrapParts(cw, [a], width) == WrapSegment(cw, a, width) by { OnePart(cw, a, width); }
      SegmentIsBreaks(cw, a, width);
    }
  }

  lemma OnePart(cw: CharWidth, a: string, width: int)
    ensures WrapParts(cw, [a], width) == WrapSegment(cw, a, width)
  {
    assert [a][1..] == [];
  }

  lemma SegmentIsBreaks(cw: CharWidth, a: string, width: int)
    ensures WrapSegment(cw, a, width) == Breaks(cw, width, "", a)
  {
  }
}
