/** Where the text of a block goes: which of its characters lie in the range of a draft, what that draft
    shows of them, and what only a marker stands for. */
module Coverage {
  import opened Sequences
  import opened Unicode
  import opened Splitting
  import opened RawBounds
  import opened Lines
  import opened Tables
  import opened Texts
  import opened Drafts
  import opened Spans
  import opened Shapes
  import opened Parts
  import opened Chunker

  // --------------------------------------------------------------- what is shown

  predicate Within(part: Part, i: nat) { part.range.0 <= i < part.range.1 }

  ghost predicate Covered(parts: seq<Part>, i: nat) {
    exists k :: 0 <= k < |parts| && Within(parts[k], i)
  }

  function Max(a: nat, b: nat): nat { if a < b then b else a }

  function Min(a: nat, b: nat): nat { if a < b then a else b }

  /** The position is in the part's range, and what the range holds of the position's line is displayed. */
  ghost predicate ShowsAt(text: string, line: Line, part: Part, i: nat) {
    && Max(line.start, part.range.0) <= i < Min(line.stop, part.range.1) <= |text|
    && Occurs(part.display, text[Max(line.start, part.range.0)..Min(line.stop, part.range.1)])
  }

  lemma SliceOccurs(text: string, a: nat, lo: nat, hi: nat, b: nat)
    requires a <= lo <= hi <= b <= |text|
    ensures Occurs(text[a..b], text[lo..hi])
  {
    assert OccursAt(text, text[a..b], a);
    SliceOfSlice(text, a, text[a..b], lo - a, hi - a);
    assert OccursAt(text[a..b], text[lo..hi], lo - a);
  }

  lemma OccursThrough(a: string, b: string, c: string)
    requires Occurs(a, b) && Occurs(b, c)
    ensures Occurs(a, c)
  {
    var i: nat :| OccursAt(a, b, i);
    var j: nat :| OccursAt(b, c, j);
    SliceOfSlice(a, i, b, j, j + |c|);
    assert OccursAt(a, c, i + j);
  }

  /** A part that shows its range as it is shows every line in it. */
  lemma SliceShows(text: string, line: Line, part: Part, i: nat)
    requires Within(part, i) && part.range.1 <= |text| && line.start <= i < line.stop
    requires part.display == text[part.range.0..part.range.1]
    ensures ShowsAt(text, line, part, i)
  {
    SliceOccurs(text, part.range.0, Max(line.start, part.range.0), Min(line.stop, part.range.1), part.range.1);
  }

  /** A part that shows the whole line shows what its range holds of it. */
  lemma WholeLineShows(text: string, line: Line, part: Part, i: nat)
    requires Within(part, i) && line.start <= i < line.stop <= |text|
    requires Occurs(part.display, text[line.start..line.stop])
    ensures ShowsAt(text, line, part, i)
  {
    var lo, hi := Max(line.start, part.range.0), Min(line.stop, part.range.1);
    SliceOccurs(text, line.start, lo, hi, line.stop);
    OccursThrough(part.display, text[line.start..line.stop], text[lo..hi]);
  }

  /** A line holds no line break, and only line breaks end it. */
  lemma {:induction false} LineBreaks(text: string, from: nat, n: nat)
    requires from <= |text| && n < |LinesFrom(text, from)|
    ensures var line := LinesFrom(text, from)[n];
            && line.start <= line.stop <= line.end <= |text|
            && (forall k :: line.start <= k < line.stop ==> !IsLineBreak(text[k]))
            && (forall k :: line.stop <= k < line.end ==> IsSpace(text[k]))
    decreases n
  {
    var first := LinesFrom(text, from)[0];
    if n > 0 {
      LineBreaks(text, first.end, n - 1);
    }
  }

  /** A visible character is in the text of its line. */
  lemma VisibleInLine(text: string, n: nat, i: nat)
    requires n < |LinesFrom(text, 0)| && i < |text| && !IsSpace(text[i])
    requires LinesFrom(text, 0)[n].start <= i < LinesFrom(text, 0)[n].end
    ensures LinesFrom(text, 0)[n].start <= i < LinesFrom(text, 0)[n].stop <= |text|
  {
    hide LinesFrom;
    LineBreaks(text, 0, n);
  }

  lemma {:induction false} JoinShows(parts: seq<string>, k: nat, separator: string)
    requires k < |parts|
    ensures Occurs(Join(parts, separator), parts[k])
    decreases |parts|
  {
    hide Occurs;
    if |parts| == 1 {
      OccursItself(parts[0]);
    } else {
      var rest := Join(parts[1..], separator);
      var whole := Join(parts, separator);
      if k == 0 {
        SliceOccurs(whole, 0, 0, |parts[0]|, |whole|);
        assert whole[0..|parts[0]|] == parts[0] && whole[0..|whole|] == whole;
      } else {
        JoinShows(parts[1..], k - 1, separator);
        SliceOccurs(whole, 0, |parts[0] + separator|, |whole|, |whole|);
        assert whole[|parts[0] + separator|..|whole|] == rest && whole[0..|whole|] == whole;
        OccursThrough(whole, rest, parts[k]);
      }
    }
  }

  /** Joined lines show each of them. */
  lemma {:induction false} JoinLinesShows(text: string, lines: seq<Line>, first: nat, last: nat, n: nat)
    requires InText(text, lines) && first <= n < last <= |lines|
    ensures Occurs(JoinLines(text, lines, first, last), LineText(text, lines[n]))
    decreases last
  {
    hide LinesOf, Occurs;
    var whole := JoinLines(text, lines, first, last);
    if last == first + 1 {
      OccursItself(whole);
    } else {
      var front, tail := JoinLines(text, lines, first, last - 1), LineText(text, lines[last - 1]);
      assert whole[0..|whole|] == whole;
      if n == last - 1 {
        SliceOccurs(whole, 0, |whole| - |tail|, |whole|, |whole|);
        assert whole[|whole| - |tail|..|whole|] == tail;
      } else {
        JoinLinesShows(text, lines, first, last - 1, n);
        SliceOccurs(whole, 0, 0, |front|, |whole|);
        assert whole[0..|front|] == front;
        OccursThrough(whole, front, LineText(text, lines[n]));
      }
    }
  }

  // ----------------------------------------------------------------------- prose

  lemma {:induction false} SolidAt(text: string, pieces: seq<Range>, k: nat) returns (n: nat)
    requires forall j :: 0 <= j < |pieces| ==> pieces[j].0 <= pieces[j].1 <= |text|
    requires k < |pieces| && !Blank(text[pieces[k].0..pieces[k].1])
    ensures n < |Solid(text, pieces)| && Solid(text, pieces)[n].range == pieces[k]
    decreases |pieces|
  {
    hide Blank;
    if k == 0 {
      n := 0;
    } else {
      assert pieces[1..][k - 1] == pieces[k];
      n := SolidAt(text, pieces[1..], k - 1);
      n := n + if Blank(text[pieces[0].0..pieces[0].1]) then 0 else 1;
    }
  }

  lemma ProseAt(c: Config, block: Block, parts: seq<Part>, i: nat, n: nat)
    requires ProseParts(c, block, parts) && DraftText(block) == ProseText(block) && n < |DraftLines(block)|
    requires DraftLines(block)[n].start <= i < DraftLines(block)[n].stop <= |DraftText(block)|
    requires !IsSpace(DraftText(block)[i])
    ensures Covered(parts, i)
    ensures forall k :: 0 <= k < |parts| && Within(parts[k], i) ==>
              ShowsAt(DraftText(block), DraftLines(block)[n], parts[k], i)
  {
    hide BodyLimits, Packing, WithinBudget, Maximal, UnitsOf, AllWithin, LinesFrom, ShowsAt;
    var text := ProseText(block);
    var pieces: seq<Range> :| ProsePieces(c, block, pieces) && parts == Solid(text, pieces);
    OneTile(0, |text|);
    var k := UnitAt(pieces, 0, |text|, i);
    assert text[pieces[k].0..pieces[k].1][i - pieces[k].0] == text[i];
    var m := SolidAt(text, pieces, k);
    assert Within(parts[m], i);
    forall j | 0 <= j < |parts| && Within(parts[j], i) ensures ShowsAt(text, DraftLines(block)[n], parts[j], i) {
      SliceShows(text, DraftLines(block)[n], parts[j], i);
    }
  }

  // ----------------------------------------------------------------------- lines

  /** The line that holds a position. */
  lemma LineAt(lines: seq<Line>, size: nat, i: nat) returns (n: nat)
    requires LinesOf(lines, 0, size) && i < size
    ensures n < |lines| && lines[n].start <= i < lines[n].end
  {
    assert Tiles(Extents(lines), 0, size);
    n := UnitAt(Extents(lines), 0, size, i);
  }

  /** The range of lines that holds a position. */
  lemma RangeAt(text: string, lines: seq<Line>, ranges: seq<Range>, lo: nat, i: nat) returns (k: nat)
    requires InText(text, lines) && Tiles(ranges, lo, |lines|) && At(lines, |text|, lo) <= i < |text| && lo < |lines|
    ensures k < |ranges| && At(lines, |text|, ranges[k].0) <= i < At(lines, |text|, ranges[k].1)
  {
    hide Tiles, InText;
    InTextMeans(text, lines);
    var n := LineAt(lines, |text|, i);
    if n < lo {
      AtIncreases(lines, |text|, n, n + 1);
      AtIncreases(lines, |text|, n + 1, lo);
    }
    k := UnitAt(ranges, lo, |lines|, n);
    AtIncreases(lines, |text|, ranges[k].0, n);
    AtIncreases(lines, |text|, n, n + 1);
    AtIncreases(lines, |text|, n + 1, ranges[k].1);
  }

  lemma InTextMeans(text: string, lines: seq<Line>)
    requires InText(text, lines)
    ensures LinesOf(lines, 0, |text|)
  {
  }

  lemma FirstLine(text: string, lines: seq<Line>)
    requires InText(text, lines)
    ensures At(lines, |text|, 0) == 0
  {
  }

  /** A range of whole lines that holds a position holds its line. */
  lemma LineInRange(text: string, lines: seq<Line>, first: nat, last: nat, n: nat, i: nat)
    requires InText(text, lines) && n < |lines| && lines[n].start <= i < lines[n].end
    requires first <= last && At(lines, |text|, first) <= i < At(lines, |text|, last)
    ensures first <= n < last
  {
    hide InText;
    InTextMeans(text, lines);
    if n < first {
      AtIncreases(lines, |text|, n, n + 1);
      AtIncreases(lines, |text|, n + 1, first);
    }
    if last <= n {
      AtIncreases(lines, |text|, last, n);
    }
  }

  lemma GroupShows(text: string, lines: seq<Line>, window: nat, maxChars: nat, maxBytes: nat, g: Group, i: nat, n: nat)
    requires InText(text, lines) && GroupOk(text, lines, window, maxChars, maxBytes, g)
    requires n < |lines| && lines[n].start <= i < lines[n].stop && g.range.0 <= i < g.range.1
    ensures ShowsAt(text, lines[n], Part(g.range, g.display), i)
  {
    hide WithinBudget, LinesOf, JoinLines, ShowsAt, Occurs;
    GroupStart(text, lines, window, maxChars, maxBytes, g);
    if g.whole {
      LineInRange(text, lines, g.first, g.last, n, i);
      JoinLinesShows(text, lines, g.first, g.last, n);
      WholeLineShows(text, lines[n], Part(g.range, g.display), i);
    } else {
      SliceShows(text, lines[n], Part(g.range, g.display), i);
    }
  }

  lemma LinesAt(c: Config, block: Block, kind: ContentType, window: nat, parts: seq<Part>, i: nat, n: nat)
    requires LineParts(c, block, kind, window, parts) && DraftText(block) == Content(block) && n < |DraftLines(block)|
    requires DraftLines(block)[n].start <= i < DraftLines(block)[n].stop <= |DraftText(block)|
    ensures Covered(parts, i)
    ensures forall k :: 0 <= k < |parts| && Within(parts[k], i) ==>
              ShowsAt(DraftText(block), DraftLines(block)[n], parts[k], i)
  {
    hide BodyLimits, LinesFrom, StripNewlines, InText, ShowsAt, GroupOk;
    var groups: seq<Group> :| LineWindows(c, block, kind, window, groups) && parts == GroupParts(groups);
    var text, lines := Content(block), DraftLines(block);
    var (maxChars, maxBytes) := BodyLimits(c, block, kind, false);
    var m := UnitAt(Ranges(groups), 0, |text|, i);
    assert Ranges(groups)[m] == groups[m].range;
    assert Within(parts[m], i);
    forall k | 0 <= k < |parts| && Within(parts[k], i) ensures ShowsAt(text, lines[n], parts[k], i) {
      GroupShows(text, lines, window, maxChars, maxBytes, groups[k], i, n);
    }
  }

  // ---------------------------------------------------------------------- python

  /** Stripping newlines from a range of lines spares the text of every line that has some. */
  lemma StripShows(text: string, a: nat, b: nat, lo: nat, hi: nat)
    requires a <= lo < hi <= b <= |text| && forall k :: lo <= k < hi ==> text[k] != '\n'
    ensures Occurs(StripNewlines(text[a..b]), text[lo..hi])
  {
    var segment := text[a..b];
    var from := RunEnd(segment, IsNewline, 0, |segment|);
    var to := LastNonNewline(segment, from, |segment|);
    assert segment[lo - a] == text[lo] && segment[hi - 1 - a] == text[hi - 1];
    assert from <= lo - a;
    assert hi - a <= to;
    SliceOccurs(segment, from, lo - a, hi - a, to);
    assert OccursAt(text, segment, a);
    SliceOfSlice(text, a, segment, lo - a, hi - a);
  }

  lemma RangeGroupShows(text: string, lines: seq<Line>, g: Group, i: nat, n: nat)
    requires InText(text, lines) && lines == LinesFrom(text, 0)
    requires n < |lines| && lines[n].start <= i < lines[n].stop && g.range.0 <= i < g.range.1 <= |text|
    requires g.display == text[g.range.0..g.range.1] || g.display == StripNewlines(text[g.range.0..g.range.1])
    ensures ShowsAt(text, lines[n], Part(g.range, g.display), i)
  {
    hide LinesOf, LinesFrom, StripNewlines, Occurs;
    var part := Part(g.range, g.display);
    LineBreaks(text, 0, n);
    if g.display == text[g.range.0..g.range.1] {
      SliceShows(text, lines[n], part, i);
    } else {
      StripShows(text, g.range.0, g.range.1, Max(lines[n].start, g.range.0), Min(lines[n].stop, g.range.1));
    }
  }

  lemma RangePartsAt(c: Config, block: Block, range: Range, parts: seq<Part>, i: nat, n: nat)
    requires DraftText(block) == Content(block) && n < |DraftLines(block)|
    requires RangeParts(c, block, DraftLines(block), range, parts)
    requires DraftLines(block)[n].start <= i < DraftLines(block)[n].stop <= |DraftText(block)|
    requires !IsSpace(DraftText(block)[i])
    requires At(DraftLines(block), |DraftText(block)|, range.0) <= i < At(DraftLines(block), |DraftText(block)|,
             range.1)
    ensures Covered(parts, i)
    ensures forall k :: 0 <= k < |parts| && Within(parts[k], i) ==>
              ShowsAt(DraftText(block), DraftLines(block)[n], parts[k], i)
  {
    hide BodyLimits, StripNewlines, WithinBudget, InText, At, ShowsAt, LinesFrom;
    var text, lines := Content(block), DraftLines(block);
    var start, end := At(lines, |text|, range.0), At(lines, |text|, range.1);
    SolidRange(block, lines, range, i);
    var groups: seq<Group> :| RangeWindows(c, block, lines, range, groups) && parts == GroupParts(groups);
    RangeGroupsCover(c, block, lines, range, groups, i);
    forall k | 0 <= k < |parts| && Within(parts[k], i) ensures ShowsAt(text, lines[n], parts[k], i) {
      RangeGroupText(c, block, lines, range, groups, k);
      RangeGroupShows(text, lines, groups[k], i, n);
    }
  }

  lemma SolidRange(block: Block, lines: seq<Line>, range: Range, i: nat)
    requires i < |Content(block)| && !IsSpace(Content(block)[i])
    requires At(lines, |Content(block)|, range.0) <= i < At(lines, |Content(block)|, range.1)
    ensures !BlankRange(block, lines, range)
  {
    hide StripNewlines, At;
    var text := Content(block);
    var start, end := At(lines, |text|, range.0), At(lines, |text|, range.1);
    if start <= end <= |text| {
      assert text[start..end][i - start] == text[i];
    }
  }

  lemma RangeGroupsCover(c: Config, block: Block, lines: seq<Line>, range: Range, groups: seq<Group>, i: nat)
    requires RangeWindows(c, block, lines, range, groups)
    requires At(lines, |Content(block)|, range.0) <= i < At(lines, |Content(block)|, range.1)
    ensures Covered(GroupParts(groups), i)
  {
    hide BodyLimits, StripNewlines, WithinBudget, InText, At, RangeGroupsOk;
    var text := Content(block);
    var start, end := At(lines, |text|, range.0), At(lines, |text|, range.1);
    if |groups| == 1 && groups[0].range == (start, end) {
      assert Within(GroupParts(groups)[0], i);
    } else {
      var k := UnitAt(Ranges(groups), start, end, i);
      assert Ranges(groups)[k] == groups[k].range;
      assert Within(GroupParts(groups)[k], i);
    }
  }

  lemma RangeGroupText(c: Config, block: Block, lines: seq<Line>, range: Range, groups: seq<Group>, k: nat)
    requires RangeWindows(c, block, lines, range, groups) && k < |groups|
    ensures InText(Content(block), lines) && groups[k].range.0 <= groups[k].range.1 <= |Content(block)|
    ensures var slice := Content(block)[groups[k].range.0..groups[k].range.1];
            groups[k].display == slice || groups[k].display == StripNewlines(slice)
  {
    hide BodyLimits, StripNewlines, WithinBudget, InText, At, Tiles;
  }

  /** Definitions and gaps cover all lines. */
  lemma {:induction false} GapsTile(structure: seq<Range>, cursor: nat, n: nat)
    requires forall k :: 0 <= k < |structure| ==> structure[k].0 < structure[k].1 <= n
    requires forall k :: 0 <= k < |structure| - 1 ==> structure[k].1 <= structure[k + 1].0
    requires cursor <= n && (structure != [] ==> cursor <= structure[0].0)
    ensures Tiles(WithGaps(structure, cursor, n), cursor, n)
    decreases |structure|
  {
    hide Tiles;
    NoTiles(cursor);
    if structure == [] {
      if cursor < n { OneTile(cursor, n); }
    } else {
      var s := structure[0];
      var rest := WithGaps(structure[1..], s.1, n);
      GapsTile(structure[1..], s.1, n);
      GapThen(cursor, s, rest, n);
    }
  }

  lemma GapThen(cursor: nat, s: Range, rest: seq<Range>, n: nat)
    requires cursor <= s.0 < s.1 && Tiles(rest, s.1, n)
    ensures Tiles((if cursor < s.0 then [(cursor, s.0)] else []) + [s] + rest, cursor, n)
  {
    hide Tiles;
    OneTile(s.0, s.1);
    assert [s] == [(s.0, s.1)];
    TilesConcat([s], rest, s.0, s.1, n);
    if cursor < s.0 {
      OneTile(cursor, s.0);
      TilesConcat([(cursor, s.0)], [s] + rest, cursor, s.0, n);
      assert [(cursor, s.0)] + ([s] + rest) == [(cursor, s.0)] + [s] + rest;
    } else {
      assert [] + [s] + rest == [s] + rest;
    }
  }

  /** A structural range holds whole lines, so parts of other ranges do not meet this one. */
  lemma RangePartsInside(c: Config, block: Block, lines: seq<Line>, range: Range, parts: seq<Part>, k: nat)
    requires RangeParts(c, block, lines, range, parts) && k < |parts|
    ensures At(lines, |Content(block)|, range.0) <= parts[k].range.0
            && parts[k].range.1 <= At(lines, |Content(block)|, range.1)
  {
    hide BodyLimits, StripNewlines, WithinBudget, InText, At, BlankRange, Tiles;
    var groups: seq<Group> :| RangeWindows(c, block, lines, range, groups) && parts == GroupParts(groups);
    var start, end := At(lines, |Content(block)|, range.0), At(lines, |Content(block)|, range.1);
    if !(|groups| == 1 && groups[0].range == (start, end)) {
      TilesOrdered(Ranges(groups), start, end);
      assert Ranges(groups)[k] == groups[k].range;
    }
  }

  lemma PythonAt(c: Config, block: Block, parts: seq<Part>, i: nat, n: nat)
    requires block.structure.Some? && c.codeWindowLines >= 0 && PythonParts(c, block, parts) && StructureOk(block)
    requires DraftText(block) == Content(block) && n < |DraftLines(block)|
    requires DraftLines(block)[n].start <= i < DraftLines(block)[n].stop <= |DraftText(block)|
    requires !IsSpace(DraftText(block)[i])
    ensures Covered(parts, i)
    ensures forall k :: 0 <= k < |parts| && Within(parts[k], i) ==>
              ShowsAt(DraftText(block), DraftLines(block)[n], parts[k], i)
  {
    hide RangeParts, LineParts, StripNewlines, LinesFrom, LinesOf, Tiles, WithGaps, ShowsAt, Within;
    var text, lines := Content(block), DraftLines(block);
    LinesInText(text);
    if block.structure.value == [] {
      LinesAt(c, block, CodeContent, c.codeWindowLines, parts, i, n);
    } else {
      var ranges := PythonRanges(block);
      var each :| |each| == |ranges| && parts == Flatten(each)
                  && forall k :: 0 <= k < |each| ==> RangeParts(c, block, lines, ranges[k], each[k]);
      GapsTile(block.structure.value, 0, |lines|);
      FirstLine(text, lines);
      var r := RangeAt(text, lines, ranges, 0, i);
      RangePartsAt(c, block, ranges[r], each[r], i, n);
      FlattenCovered(each, r, i);
      forall k | 0 <= k < |parts| && Within(parts[k], i) ensures ShowsAt(text, lines[n], parts[k], i) {
        FlattenMember(each, parts[k]);
        var q :| 0 <= q < |each| && parts[k] in each[q];
        var j :| 0 <= j < |each[q]| && each[q][j] == parts[k];
        SameRange(c, block, lines, ranges, each, r, q, j, i);
      }
    }
  }

  lemma FlattenCovered(each: seq<seq<Part>>, r: nat, i: nat)
    requires r < |each| && Covered(each[r], i)
    ensures Covered(Flatten(each), i)
  {
    hide Within;
    var j :| 0 <= j < |each[r]| && Within(each[r][j], i);
    FlattenMember(each, each[r][j]);
    var k :| 0 <= k < |Flatten(each)| && Flatten(each)[k] == each[r][j];
  }

  lemma SameRange(c: Config, block: Block, lines: seq<Line>, ranges: seq<Range>, each: seq<seq<Part>>,
                  r: nat, q: nat, j: nat, i: nat)
    requires |each| == |ranges| && InText(Content(block), lines) && Tiles(ranges, 0, |lines|)
    requires forall k :: 0 <= k < |each| ==> RangeParts(c, block, lines, ranges[k], each[k])
    requires r < |ranges| && q < |ranges| && j < |each[q]| && Within(each[q][j], i) && i < |Content(block)|
    requires At(lines, |Content(block)|, ranges[r].0) <= i < At(lines, |Content(block)|, ranges[r].1)
    ensures q == r
  {
    hide RangeParts, InText, Tiles, StripNewlines;
    var text := Content(block);
    InTextMeans(text, lines);
    RangePartsInside(c, block, lines, ranges[q], each[q], j);
    TilesOrdered(ranges, 0, |lines|);
    UnitsNonEmpty(ranges, 0, |lines|);
    var n := LineAt(lines, |text|, i);
    LineInRange(text, lines, ranges[q].0, ranges[q].1, n, i);
    LineInRange(text, lines, ranges[r].0, ranges[r].1, n, i);
    StartInside(ranges, 0, |lines|, r, n);
  }

  // ---------------------------------------------------------------------- tables

  /** A data row fits under the header. */
  predicate RowFits(c: Config, block: Block, n: nat)
    requires n < |LinesFrom(block.raw, 0)| && |LinesFrom(block.raw, 0)| > 2
    requires forall k :: 0 <= k < |LinesFrom(block.raw, 0)| ==>
               LinesFrom(block.raw, 0)[k].start <= LinesFrom(block.raw, 0)[k].stop <= |block.raw|
  {
    var raw, lines := block.raw, LinesFrom(block.raw, 0);
    var (maxChars, maxBytes) := BodyLimits(c, block, TableContent, false);
    WithinBudget(Join([LineText(raw, lines[0]), LineText(raw, lines[1]), LineText(raw, lines[n])], "\n"), maxChars,
        maxBytes)
  }

  predicate LongTable(block: Block) {
    var lines := LinesFrom(block.raw, 0);
    && block.kind == Table && |lines| > 2
    && forall k :: 0 <= k < |lines| ==> lines[k].start <= lines[k].stop <= |block.raw|
  }

  /** The header lines of a table whose first row does not fit with them. */
  predicate HiddenHeader(c: Config, block: Block, i: nat) {
    LongTable(block) && i < At(LinesFrom(block.raw, 0), |block.raw|, 2) && !RowFits(c, block, 2)
  }

  /** The line is replaced by a marker: a row that does not fit under the header, or a table of at most two
      lines that does not fit. */
  predicate Omitted(c: Config, block: Block, n: nat) {
    || (ShortTable(block) && !FitsWhole(c, block))
    || (LongTable(block) && 2 <= n < |LinesFrom(block.raw, 0)| && !RowFits(c, block, n))
  }

  ghost predicate IsMarkerFor(c: Config, block: Block, fingerprint: string -> string, n: nat, display: string) {
    var raw, lines := block.raw, LinesFrom(block.raw, 0);
    var (maxChars, maxBytes) := BodyLimits(c, block, TableContent, false);
    if ShortTable(block) then IsMarker("table", raw, fingerprint(raw), maxChars, maxBytes, display)
    else && n < |lines| && lines[n].start <= lines[n].stop <= |raw|
         && var row := LineText(raw, lines[n]);
            IsMarker("table row", row, fingerprint(row), maxChars, maxBytes, display)
  }

  lemma {:induction false} JoinTwo(a: seq<string>, b: seq<string>, separator: string)
    requires a != [] && b != []
    ensures Join(a + b, separator) == Join(a, separator) + separator + Join(b, separator)
    decreases |a|
  {
    if |a| == 1 {
      assert (a + b)[1..] == b;
    } else {
      assert (a + b)[1..] == a[1..] + b;
      JoinTwo(a[1..], b, separator);
    }
  }

  lemma OccursSmaller(whole: string, part: string)
    requires Occurs(whole, part)
    ensures |part| <= |whole| && Bytes(part) <= Bytes(whole)
  {
    var i: nat :| OccursAt(whole, part, i);
    BytesSlice(whole, 0, i, i + |part|, |whole|);
    assert whole[0..|whole|] == whole;
  }

  /** If rows fit together under the header, each fits alone. */
  lemma OneRowFits(header: seq<string>, rows: seq<string>, k: nat, maxChars: nat, maxBytes: nat)
    requires header != [] && k < |rows| && WithinBudget(Join(header + rows, "\n"), maxChars, maxBytes)
    ensures WithinBudget(Join(header + [rows[k]], "\n"), maxChars, maxBytes)
  {
    hide Join, Occurs;
    JoinTwo(header, rows, "\n");
    JoinTwo(header, [rows[k]], "\n");
    JoinShows(rows, k, "\n");
    JoinOne(rows[k]);
    OccursSmaller(Join(rows, "\n"), rows[k]);
    BytesConcat(Join(header, "\n") + "\n", Join(rows, "\n"));
    BytesConcat(Join(header, "\n") + "\n", rows[k]);
  }

  lemma JoinOne(part: string)
    ensures Join([part], "\n") == part
  {
  }

  /** A row is in a marker exactly when it does not fit under the header. */
  lemma RowMarked(header: seq<string>, rows: seq<string>, fingerprint: string -> string, limit: nat,
                  maxChars: nat, maxBytes: nat, g: RowGroup, r: nat)
    requires RowGroupOk(header, rows, fingerprint, limit, maxChars, maxBytes, g) && header != []
             && g.first <= r < g.last
    ensures g.marker <==> !WithinBudget(Join(header + [rows[r]], "\n"), maxChars, maxBytes)
    ensures g.marker ==> r == g.first
  {
    hide WithinBudget, Join, IsMarker;
    if !g.marker {
      OneRowFits(header, rows[g.first..g.last], r - g.first, maxChars, maxBytes);
    }
  }

  /** What a group of rows holds, in terms of the table's lines. */
  lemma GroupOfRows(c: Config, block: Block, fingerprint: string -> string, groups: seq<RowGroup>, k: nat)
    requires RowWindows(c, block, fingerprint, groups) && k < |groups|
    ensures var lines, g := LinesFrom(block.raw, 0), groups[k];
            var (maxChars, maxBytes) := BodyLimits(c, block, TableContent, false);
            && InText(block.raw, lines) && |lines| > 2 && g.first < g.last <= |lines| - 2 && c.tableRowsPerChunk >= 1
            && var texts := LineTexts(block.raw, lines);
               RowGroupOk(texts[..2], texts[2..], fingerprint, c.tableRowsPerChunk, maxChars, maxBytes, g)
  {
    hide BodyLimits, LinesFrom, LinesOf, Tiles, WithinBudget, IsMarker, Join;
  }

  lemma HeaderAndRow(raw: string, lines: seq<Line>, n: nat)
    requires InText(raw, lines) && 2 <= n < |lines|
    ensures var texts := LineTexts(raw, lines);
            && texts[2..][n - 2] == LineText(raw, lines[n])
            && texts[..2] + [texts[2..][n - 2]] == [LineText(raw, lines[0]), LineText(raw, lines[1]),
                LineText(raw, lines[n])]
  {
    hide LinesOf;
  }

  /** A row's own group: a marker for it alone if it does not fit, and otherwise one that shows it. */
  lemma RowShown(c: Config, block: Block, fingerprint: string -> string, groups: seq<RowGroup>, k: nat, n: nat)
    requires RowWindows(c, block, fingerprint, groups) && k < |groups| && LongTable(block)
    requires 2 + groups[k].first <= n < 2 + groups[k].last
    ensures n < |LinesFrom(block.raw, 0)|
    ensures if RowFits(c, block, n) then Occurs(groups[k].display, LineText(block.raw, LinesFrom(block.raw, 0)[n]))
            else IsMarkerFor(c, block, fingerprint, n, groups[k].display)
  {
    hide BodyLimits, LinesFrom, InText, WithinBudget, IsMarker, Join, Occurs, RowWindows;
    GroupOfRows(c, block, fingerprint, groups, k);
    var raw, lines, g := block.raw, LinesFrom(block.raw, 0), groups[k];
    var texts := LineTexts(raw, lines);
    var header, rows := texts[..2], texts[2..];
    var (maxChars, maxBytes) := BodyLimits(c, block, TableContent, false);
    HeaderAndRow(raw, lines, n);
    RowMarked(header, rows, fingerprint, c.tableRowsPerChunk, maxChars, maxBytes, g, n - 2);
    if !g.marker {
      JoinShows(header + rows[g.first..g.last], n - g.first, "\n");
      assert (header + rows[g.first..g.last])[n - g.first] == rows[n - 2];
    }
  }

  lemma HeaderShown(c: Config, block: Block, fingerprint: string -> string, groups: seq<RowGroup>, k: nat, n: nat)
    requires RowWindows(c, block, fingerprint, groups) && k < |groups| && LongTable(block) && n < 2 && !groups[k].marker
    ensures Occurs(groups[k].display, LineText(block.raw, LinesFrom(block.raw, 0)[n]))
  {
    hide BodyLimits, LinesFrom, InText, WithinBudget, IsMarker, Join, Occurs, RowWindows;
    GroupOfRows(c, block, fingerprint, groups, k);
    var lines, g := LinesFrom(block.raw, 0), groups[k];
    var texts := LineTexts(block.raw, lines);
    JoinShows(texts[..2] + texts[2..][g.first..g.last], n, "\n");
  }

  lemma RowsStart(c: Config, block: Block, fingerprint: string -> string, groups: seq<RowGroup>)
    requires RowWindows(c, block, fingerprint, groups)
    ensures groups != [] && groups[0].first == 0 && InText(block.raw, LinesFrom(block.raw, 0))
    ensures Tiles(Owned(groups), 0, |LinesFrom(block.raw, 0)| - 2)
    ensures forall k :: 0 < k < |groups| ==> groups[k].first > 0
  {
    hide BodyLimits, LinesFrom, InText, RowGroupsOk;
    var owned := Owned(groups);
    assert owned != [] && owned[0] == (groups[0].first, groups[0].last);
    forall k | 0 < k < |groups| ensures groups[k].first > 0 {
      TilesIncrease(owned, 0, |LinesFrom(block.raw, 0)| - 2, 0, k);
      assert owned[k] == (groups[k].first, groups[k].last);
    }
  }

  /** Rows are in the range of their group; the header is in that of the first, unless that is a marker. */
  lemma TableRanges(c: Config, block: Block, fingerprint: string -> string, groups: seq<RowGroup>, i: nat, n: nat)
    requires RowWindows(c, block, fingerprint, groups) && LongTable(block) && n < |LinesFrom(block.raw, 0)|
    requires LinesFrom(block.raw, 0)[n].start <= i < LinesFrom(block.raw, 0)[n].end
    ensures forall k :: 0 <= k < |groups| ==>
              (Within(RowPart(LinesFrom(block.raw, 0), |block.raw|, groups[k]), i) <==>
                 2 + groups[k].first <= n < 2 + groups[k].last || (n < 2 && k == 0 && !groups[k].marker))
  {
    hide BodyLimits, LinesFrom, InText, RowGroupsOk, RowWindows, Tiles, Within, LongTable;
    RowsStart(c, block, fingerprint, groups);
    forall k | 0 <= k < |groups|
      ensures Within(RowPart(LinesFrom(block.raw, 0), |block.raw|, groups[k]), i) <==>
                2 + groups[k].first <= n < 2 + groups[k].last || (n < 2 && k == 0 && !groups[k].marker)
    {
      GroupOfRows(c, block, fingerprint, groups, k);
      RowPartHolds(block.raw, LinesFrom(block.raw, 0), groups[k], i, n);
    }
  }

  lemma RowPartHolds(raw: string, lines: seq<Line>, g: RowGroup, i: nat, n: nat)
    requires InText(raw, lines) && n < |lines| && lines[n].start <= i < lines[n].end && g.first < g.last <= |lines| - 2
    ensures Within(RowPart(lines, |raw|, g), i) <==>
              2 + g.first <= n < 2 + g.last || (n < 2 && g.first == 0 && !g.marker)
  {
    hide InText;
    InTextMeans(raw, lines);
    AtIncreases(lines, |raw|, n, n + 1);
    var from := if !g.marker && g.first == 0 then 0 else 2 + g.first;
    if from <= n < 2 + g.last {
      AtIncreases(lines, |raw|, from, n);
      AtIncreases(lines, |raw|, n + 1, 2 + g.last);
    } else if Within(RowPart(lines, |raw|, g), i) {
      LineInRange(raw, lines, from, 2 + g.last, n, i);
    }
  }

  lemma LongTableAt(c: Config, block: Block, fingerprint: string -> string, groups: seq<RowGroup>, parts: seq<Part>,
                    i: nat, n: nat)
    requires RowWindows(c, block, fingerprint, groups) && LongTable(block) && n < |DraftLines(block)|
    requires parts == RowParts(LinesFrom(block.raw, 0), |block.raw|, groups)
    requires DraftLines(block)[n].start <= i < DraftLines(block)[n].stop <= DraftLines(block)[n].end && i < |block.raw|
    ensures Covered(parts, i) <==> !HiddenHeader(c, block, i)
    ensures forall k :: 0 <= k < |parts| && Within(parts[k], i) ==>
              if Omitted(c, block, n) then IsMarkerFor(c, block, fingerprint, n, parts[k].display)
              else ShowsAt(block.raw, DraftLines(block)[n], parts[k], i)
  {
    hide BodyLimits, LinesFrom, InText, RowWindows, Tiles, RowFits, LongTable, ShowsAt, IsMarkerFor, Within, Occurs;
    var raw, lines := block.raw, LinesFrom(block.raw, 0);
    LongTableMeans(block);
    RowsStart(c, block, fingerprint, groups);
    TableRanges(c, block, fingerprint, groups, i, n);
    FirstMarker(c, block, fingerprint, groups);
    HeaderEnds(raw, lines, n, i);
    if n >= 2 {
      RowCovered(groups, |lines|, n);
    }
    assert Covered(parts, i) <==> !HiddenHeader(c, block, i) by {
      assert n < 2 ==> (Within(parts[0], i) <==> !groups[0].marker);
      assert n >= 2 ==> exists k :: 0 <= k < |parts| && Within(parts[k], i) by {
        if n >= 2 {
          var k :| 0 <= k < |groups| && 2 + groups[k].first <= n < 2 + groups[k].last;
          assert Within(parts[k], i);
        }
      }
    }
    forall k | 0 <= k < |parts| && Within(parts[k], i)
      ensures if Omitted(c, block, n) then IsMarkerFor(c, block, fingerprint, n, parts[k].display)
              else ShowsAt(raw, lines[n], parts[k], i)
    {
      if n < 2 {
        HeaderShown(c, block, fingerprint, groups, k, n);
        WholeLineShows(raw, lines[n], parts[k], i);
      } else {
        RowShown(c, block, fingerprint, groups, k, n);
        if RowFits(c, block, n) {
          WholeLineShows(raw, lines[n], parts[k], i);
        }
      }
    }
  }

  lemma LongTableMeans(block: Block)
    requires LongTable(block)
    ensures |LinesFrom(block.raw, 0)| > 2 && block.kind == Table && !ShortTable(block)
    ensures forall k :: 0 <= k < |LinesFrom(block.raw, 0)| ==>
              LinesFrom(block.raw, 0)[k].start <= LinesFrom(block.raw, 0)[k].stop <= |block.raw|
  {
    hide LinesFrom;
  }

  lemma FirstMarker(c: Config, block: Block, fingerprint: string -> string, groups: seq<RowGroup>)
    requires RowWindows(c, block, fingerprint, groups) && LongTable(block) && groups != [] && groups[0].first == 0
    ensures groups[0].marker <==> !RowFits(c, block, 2)
  {
    hide BodyLimits, LinesFrom, InText, WithinBudget, IsMarker, Join, RowWindows;
    GroupOfRows(c, block, fingerprint, groups, 0);
    var lines := LinesFrom(block.raw, 0);
    var texts := LineTexts(block.raw, lines);
    var (maxChars, maxBytes) := BodyLimits(c, block, TableContent, false);
    HeaderAndRow(block.raw, lines, 2);
    RowMarked(texts[..2], texts[2..], fingerprint, c.tableRowsPerChunk, maxChars, maxBytes, groups[0], 0);
  }

  lemma HeaderEnds(raw: string, lines: seq<Line>, n: nat, i: nat)
    requires InText(raw, lines) && n < |lines| && lines[n].start <= i < lines[n].end
    ensures i < At(lines, |raw|, 2) <==> n < 2
  {
    hide InText;
    InTextMeans(raw, lines);
    AtIncreases(lines, |raw|, n, n + 1);
    if n < 2 {
      AtIncreases(lines, |raw|, n + 1, 2);
    } else {
      AtIncreases(lines, |raw|, 2, n);
    }
  }

  lemma RowCovered(groups: seq<RowGroup>, size: nat, n: nat)
    requires size > 2 && Tiles(Owned(groups), 0, size - 2) && 2 <= n < size
    ensures exists k :: 0 <= k < |groups| && 2 + groups[k].first <= n < 2 + groups[k].last
  {
    hide Tiles;
    var k := UnitAt(Owned(groups), 0, size - 2, n - 2);
    assert Owned(groups)[k] == (groups[k].first, groups[k].last);
  }

  lemma TableAt(c: Config, block: Block, fingerprint: string -> string, parts: seq<Part>, i: nat, n: nat)
    requires TableParts(c, block, fingerprint, parts) && block.kind == Table && n < |DraftLines(block)|
    requires DraftLines(block)[n].start <= i < DraftLines(block)[n].stop <= |block.raw|
    ensures Covered(parts, i) <==> !HiddenHeader(c, block, i)
    ensures forall k :: 0 <= k < |parts| && Within(parts[k], i) ==>
              if Omitted(c, block, n) then IsMarkerFor(c, block, fingerprint, n, parts[k].display)
              else ShowsAt(block.raw, DraftLines(block)[n], parts[k], i)
  {
    hide BodyLimits, LinesFrom, RowWindows, RowFits, ShowsAt, FitsWhole, IsMarker;
    var raw, lines := block.raw, LinesFrom(block.raw, 0);
    LineBreaks(raw, 0, n);
    if ShortTable(block) {
      assert Within(parts[0], i);
      assert raw[0..|raw|] == raw;
      if FitsWhole(c, block) {
        SliceShows(raw, lines[n], parts[0], i);
      }
    } else {
      LinesInText(raw);
      assert LongTable(block);
      var groups: seq<RowGroup> :| RowWindows(c, block, fingerprint, groups) && parts == RowParts(lines, |raw|, groups);
      LongTableAt(c, block, fingerprint, groups, parts, i, n);
    }
  }

  // ------------------------------------------------------------------ the theorems

  /** A visible character of a block lies in the range of one of its parts exactly when it is not in the
      header of a table whose first row does not fit with it. The part shows what its range holds of the
      character's line; only a row that does not fit under the header, or a short table that does not fit,
      is replaced by its marker. */
  lemma EveryPositionIsCovered(c: Config, block: Block, fingerprint: string -> string, parts: seq<Part>, i: nat, n: nat)
    requires ConfigOk(c) && StructureOk(block) && BlockParts(c, block, fingerprint, parts)
    requires i < |DraftText(block)| && !IsSpace(DraftText(block)[i])
    requires n < |DraftLines(block)| && DraftLines(block)[n].start <= i < DraftLines(block)[n].end
    ensures Covered(parts, i) <==> !HiddenHeader(c, block, i)
    ensures forall k :: 0 <= k < |parts| && Within(parts[k], i) ==>
              if Omitted(c, block, n) then IsMarkerFor(c, block, fingerprint, n, parts[k].display)
              else ShowsAt(DraftText(block), DraftLines(block)[n], parts[k], i)
  {
    hide LineParts, TableParts, ProseParts, PythonParts, StructureOk, ShowsAt, LinesFrom, RowFits, FitsWhole,
         IsMarkerFor, Covered;
    VisibleInLine(DraftText(block), n, i);
    match block.kind
    case Code =>
      if IsPython(block.language) && block.structure.Some? {
        PythonAt(c, block, parts, i, n);
      } else {
        LinesAt(c, block, CodeContent, c.codeWindowLines, parts, i, n);
      }
    case Mermaid => LinesAt(c, block, MermaidContent, c.mermaidWindowLines, parts, i, n);
    case Table => TableAt(c, block, fingerprint, parts, i, n);
    case _ => ProseAt(c, block, parts, i, n);
  }

  ghost predicate MarksSomeRow(c: Config, block: Block, fingerprint: string -> string, display: string) {
    exists r :: 2 <= r < |LinesFrom(block.raw, 0)| && IsMarkerFor(c, block, fingerprint, r, display)
  }

  /** The header of a long table is displayed by some draft if any row fits under it; otherwise every draft
      of the table is a marker. */
  lemma HeaderIsDisplayed(c: Config, block: Block, fingerprint: string -> string, parts: seq<Part>, n: nat)
    requires ConfigOk(c) && BlockParts(c, block, fingerprint, parts) && LongTable(block) && n < 2
    ensures if exists r :: 2 <= r < |LinesFrom(block.raw, 0)| && RowFits(c, block, r)
            then exists k :: && 0 <= k < |parts|
                             && Occurs(parts[k].display, LineText(block.raw, LinesFrom(block.raw, 0)[n]))
            else forall k :: 0 <= k < |parts| ==> MarksSomeRow(c, block, fingerprint, parts[k].display)
  {
    hide BodyLimits, LinesFrom, InText, RowWindows, Tiles, RowFits, IsMarkerFor, Occurs;
    var raw, lines := block.raw, LinesFrom(block.raw, 0);
    var groups: seq<RowGroup> :| RowWindows(c, block, fingerprint, groups) && parts == RowParts(lines, |raw|, groups);
    RowsStart(c, block, fingerprint, groups);
    if r :| 2 <= r < |lines| && RowFits(c, block, r) {
      RowCovered(groups, |lines|, r);
      var k :| 0 <= k < |groups| && 2 + groups[k].first <= r < 2 + groups[k].last;
      MarkerIffUnfit(c, block, fingerprint, groups, k, r);
      HeaderShown(c, block, fingerprint, groups, k, n);
      assert parts[k].display == groups[k].display;
    } else {
      forall k | 0 <= k < |parts| ensures MarksSomeRow(c, block, fingerprint, parts[k].display) {
        GroupOfRows(c, block, fingerprint, groups, k);
        RowShown(c, block, fingerprint, groups, k, 2 + groups[k].first);
        assert !RowFits(c, block, 2 + groups[k].first);
        assert parts[k].display == groups[k].display;
      }
    }
  }

  lemma MarkerIffUnfit(c: Config, block: Block, fingerprint: string -> string, groups: seq<RowGroup>, k: nat, n: nat)
    requires RowWindows(c, block, fingerprint, groups) && k < |groups| && LongTable(block)
    requires 2 + groups[k].first <= n < 2 + groups[k].last && n < |LinesFrom(block.raw, 0)|
    ensures groups[k].marker <==> !RowFits(c, block, n)
  {
    hide BodyLimits, LinesFrom, InText, WithinBudget, IsMarker, Join, RowWindows;
    GroupOfRows(c, block, fingerprint, groups, k);
    var lines := LinesFrom(block.raw, 0);
    var texts := LineTexts(block.raw, lines);
    var (maxChars, maxBytes) := BodyLimits(c, block, TableContent, false);
    HeaderAndRow(block.raw, lines, n);
    RowMarked(texts[..2], texts[2..], fingerprint, c.tableRowsPerChunk, maxChars, maxBytes, groups[k], n - 2);
  }

  /** Of the block's own parts, one shows what its range holds of the character's line; the draft the block
      contributes for it is displayed by a chunk that names the block. */
  ghost predicate Retrievable(c: Config, fingerprint: string -> string, t: Trace, k: nat, block: Block, line: Line,
                              i: nat)
    requires ConfigOk(c) && k < |t.parts|
  {
    exists parts: seq<Part>, p, j ::
      && BlockParts(c, block, fingerprint, parts) && 0 <= p < |parts| == |t.parts[k]| && 0 <= j < |t.drafts|
      && t.parts[k][p].Some? && Drawn(block, parts[p], t.parts[k][p].value)
      && ShowsAt(DraftText(block), line, parts[p], i)
      && block in t.drafts[j].blocks && Occurs(t.drafts[j].display, parts[p].display)
  }

  /** In a built document every visible character of every block is retrievable, except for barriers,
      hidden headers and what a marker stands for. */
  lemma EveryPositionIsRetrievable(c: Config, blocks: seq<Block>, fingerprint: string -> string, t: Trace, k: nat,
                                   i: nat, n: nat)
    requires ConfigOk(c) && TraceOf(c, blocks, fingerprint, t) && k < |blocks| && StructureOk(blocks[k])
    requires !IsBarrier(blocks[k].kind) && i < |DraftText(blocks[k])| && !IsSpace(DraftText(blocks[k])[i])
    requires n < |DraftLines(blocks[k])| && DraftLines(blocks[k])[n].start <= i < DraftLines(blocks[k])[n].end
    requires !HiddenHeader(c, blocks[k], i) && !Omitted(c, blocks[k], n)
    ensures Retrievable(c, fingerprint, t, k, blocks[k], DraftLines(blocks[k])[n], i)
  {
    hide BlockShown, BlockParts, Runs, AllDraftsOk, DraftOk, HiddenHeader, Omitted, Drawn, StructureOk, Occurs, Flatten,
         LinesFrom, ShowsAt, IsMarkerFor, Within;
    var stream, block := Flatten(t.parts), blocks[k];
    assert Contributes(c, block, fingerprint, t.parts[k]);
    var drafts :| && DraftsOf(c, block, drafts) && BlockShown(c, block, fingerprint, drafts)
                  && t.parts[k] == Present(drafts);
    var parts := DraftsHaveParts(c, block, fingerprint, drafts);
    EveryPositionIsCovered(c, block, fingerprint, parts, i, n);
    var p :| 0 <= p < |parts| && Within(parts[p], i);
    assert t.parts[k][p] == Some(drafts[p]);
    FlattenMember(t.parts, Some(drafts[p]));
    var m :| 0 <= m < |stream| && stream[m] == Some(drafts[p]);
    var j := EntryShown(c, stream, |stream|, t.drafts, t.runs, m);
    DrawnShows(block, parts[p], drafts[p]);
    assert Drawn(block, parts[p], t.parts[k][p].value);
  }

  lemma DrawnShows(block: Block, part: Part, d: Draft)
    requires Drawn(block, part, d)
    ensures d.display == part.display && d.blocks == [block]
  {
    hide Located, LinesFrom;
  }
}
