/** Blocks that cannot be built, and a table whose header is in no draft's range. */
module EdgeCases {
  import opened Sequences
  import opened Unicode
  import opened Splitting
  import opened Lines
  import opened Tables
  import opened Texts
  import opened Drafts
  import opened Spans
  import opened Shapes
  import opened Chunker
  import opened Parts
  import opened Coverage

  // ----------------------------------------------------------- blocks that fail

  /** A table block without text is drafted as a blank chunk. */
  lemma EmptyTableFails(c: Config, block: Block, fingerprint: string -> string)
    requires ConfigOk(c) && block.kind == Table && block.raw == ""
    ensures !BlockBuilds(c, block, fingerprint)
  {
    hide EmbeddingPrefix;
    LimitsLeaveRoom(c, block, TableContent, false);
    assert LinesFrom(block.raw, 0) == [];
  }

  lemma BlankWithin(text: string, lo: nat, from: nat, to: nat, hi: nat)
    requires lo <= from <= to <= hi <= |text| && Blank(text[lo..hi])
    ensures Blank(text[from..to])
  {
    forall k | 0 <= k < to - from ensures IsSpace(text[from..to][k]) {
      assert text[lo..hi][from - lo + k] == text[from + k];
    }
  }

  predicate BlankLine(text: string, line: Line) {
    line.start <= line.stop <= line.end <= |text| && Blank(text[line.start..line.end])
  }

  lemma {:induction false} JoinOfBlank(text: string, lines: seq<Line>, first: nat, last: nat)
    requires InText(text, lines) && first < last <= |lines|
    requires forall k :: first <= k < last ==> BlankLine(text, lines[k])
    ensures Blank(JoinLines(text, lines, first, last))
    decreases last
  {
    hide LinesOf;
    var line := lines[last - 1];
    BlankWithin(text, line.start, line.start, line.stop, line.end);
    if last > first + 1 {
      JoinOfBlank(text, lines, first, last - 1);
    }
  }

  /** Among one line fewer than two windows of blank lines, some window is blank. */
  lemma BlankWindow(text: string, lines: seq<Line>, window: nat, maxChars: nat, maxBytes: nat, g: Group, n: nat)
    requires InText(text, lines) && GroupOk(text, lines, window, maxChars, maxBytes, g) && 1 <= window
    requires n + 2 * window - 1 <= |lines| && forall k :: n <= k < n + 2 * window - 1 ==> BlankLine(text, lines[k])
    requires g.range.0 <= lines[n + window - 1].start < g.range.1
    ensures Blank(g.display)
  {
    hide WithinBudget, LinesOf, Blank, JoinLines;
    var m := n + window - 1;
    GroupStart(text, lines, window, maxChars, maxBytes, g);
    AtIncreases(lines, |text|, m, m + 1);
    if g.whole {
      LineInRange(text, lines, g.first, g.last, m, lines[m].start);
      JoinOfBlank(text, lines, g.first, g.last);
    } else {
      AtIncreases(lines, |text|, g.first, g.first + 1);
      SameLine(text, lines, g.first, m, lines[m].start);
      BlankWithin(text, lines[m].start, g.range.0, g.range.1, lines[m].end);
    }
  }

  /** Code or a diagram with that many blank lines in a row cannot be built. */
  lemma BlankLinesFail(c: Config, block: Block, kind: ContentType, window: nat, n: nat)
    requires 1 <= window && n + 2 * window - 1 <= |LinesFrom(Content(block), 0)|
    requires forall k :: n <= k < n + 2 * window - 1 ==> BlankLine(Content(block), LinesFrom(Content(block), 0)[k])
    ensures !LinesBuild(c, block, kind, window)
  {
    hide BodyLimits, LinesFrom, StripNewlines, WithinBudget, Tiles, LinesOf, Locatable, Blank, BlankLine, GroupOk;
    if LinesBuild(c, block, kind, window) {
      var groups: seq<Group> :| && LineWindows(c, block, kind, window, groups)
                                && AllShowable(block, Content(block), GroupParts(groups));
      var text, lines := Content(block), LinesFrom(Content(block), 0);
      var m := n + window - 1;
      AtIncreases(lines, |text|, m, m + 1);
      var k := UnitAt(Ranges(groups), 0, |text|, lines[m].start);
      assert Ranges(groups)[k] == groups[k].range && GroupParts(groups)[k].display == groups[k].display;
      var (maxChars, maxBytes) := BodyLimits(c, block, kind, false);
      assert GroupOk(text, lines, window, maxChars, maxBytes, groups[k]);
      BlankWindow(text, lines, window, maxChars, maxBytes, groups[k], n);
    }
  }

  /** White space from `p` on, one character fewer than two budgets, in a line that is over budget. */
  ghost predicate SpacesInLongLine(text: string, lines: seq<Line>, n: nat, p: nat, maxChars: nat, maxBytes: nat) {
    && n < |lines| && lines[n].start <= lines[n].stop <= lines[n].end <= |text|
    && lines[n].start <= p && 1 <= maxChars && p + 2 * maxChars - 1 <= lines[n].end
    && Blank(text[p..p + 2 * maxChars - 1]) && !WithinBudget(LineText(text, lines[n]), maxChars, maxBytes)
  }

  /** Then some slice of the line is blank. */
  lemma BlankSlice(text: string, lines: seq<Line>, window: nat, maxChars: nat, maxBytes: nat, g: Group, n: nat, p: nat)
    requires InText(text, lines) && GroupOk(text, lines, window, maxChars, maxBytes, g)
    requires SpacesInLongLine(text, lines, n, p, maxChars, maxBytes)
    requires g.range.0 <= p + maxChars - 1 < g.range.1
    ensures Blank(g.display)
  {
    hide LinesOf, Blank, JoinLines, Bytes;
    var q := p + maxChars - 1;
    GroupStart(text, lines, window, maxChars, maxBytes, g);
    NotWhole(text, lines, window, maxChars, maxBytes, g, n, q);
    SliceLine(text, lines, window, maxChars, maxBytes, g, n, q);
    BlankWithin(text, p, g.range.0, g.range.1, p + 2 * maxChars - 1);
  }

  /** A slice that holds a position of a line is a slice of that line. */
  lemma SliceLine(text: string, lines: seq<Line>, window: nat, maxChars: nat, maxBytes: nat, g: Group, n: nat, q: nat)
    requires InText(text, lines) && GroupOk(text, lines, window, maxChars, maxBytes, g) && !g.whole
    requires n < |lines| && lines[n].start <= q < lines[n].end && g.range.0 <= q < g.range.1
    ensures g.first == n && lines[n].start <= g.range.0
  {
    hide WithinBudget, LinesOf;
    SameLine(text, lines, g.first, n, q);
  }

  lemma NotWhole(text: string, lines: seq<Line>, window: nat, maxChars: nat, maxBytes: nat, g: Group, n: nat, q: nat)
    requires InText(text, lines) && GroupOk(text, lines, window, maxChars, maxBytes, g)
    requires n < |lines| && lines[n].start <= q < lines[n].end && g.range.0 <= q < g.range.1
    requires !WithinBudget(LineText(text, lines[n]), maxChars, maxBytes)
    ensures !g.whole
  {
    hide WithinBudget, LinesOf, JoinLines;
    if g.whole {
      LineInRange(text, lines, g.first, g.last, n, q);
      FewerFit(text, lines, g.first, n + 1, g.last, maxChars, maxBytes);
      JoinHoldsLast(text, lines, g.first, n + 1, maxChars, maxBytes);
    }
  }

  /** Code or a diagram with such a line cannot be built. */
  lemma BlankSliceFails(c: Config, block: Block, kind: ContentType, window: nat, n: nat, p: nat)
    requires var (maxChars, maxBytes) := BodyLimits(c, block, kind, false);
             SpacesInLongLine(Content(block), LinesFrom(Content(block), 0), n, p, maxChars, maxBytes)
    ensures !LinesBuild(c, block, kind, window)
  {
    hide LinesFrom, StripNewlines, Tiles, LinesOf, Locatable, BodyLimits, Blank, GroupOk, WithinBudget;
    if LinesBuild(c, block, kind, window) {
      var groups: seq<Group> :| && LineWindows(c, block, kind, window, groups)
                                && AllShowable(block, Content(block), GroupParts(groups));
      var text, lines := Content(block), LinesFrom(Content(block), 0);
      var (maxChars, maxBytes) := BodyLimits(c, block, kind, false);
      var k := UnitAt(Ranges(groups), 0, |text|, p + maxChars - 1);
      assert Ranges(groups)[k] == groups[k].range && GroupParts(groups)[k].display == groups[k].display;
      assert GroupOk(text, lines, window, maxChars, maxBytes, groups[k]);
      BlankSlice(text, lines, window, maxChars, maxBytes, groups[k], n, p);
    }
  }

  // ------------------------------------------------------------- one document

  /** Room for one character, windows of one line. */
  const TIGHT: Config := Config(1, 1, 1, 1, 0, 1, 1, 1)

  /** A diagram of two words with a space between them, on one line. */
  const SPACED: Block := Block("b", Mermaid, "a b", Some("a b"), None, [], Span(1, 1, None), None, None)

  lemma SpacedContent()
    ensures Content(SPACED) == "a b" && LinesFrom("a b", 0) == [Line(0, 3, 3)]
  {
    var text := "a b";
    assert text[0] == 'a' && text[1] == ' ' && text[2] == 'b' && |text| == 3;
    assert RunEnd(text, IsNewline, 0, 3) == 0 && LastNonNewline(text, 0, 3) == 3;
    assert text[0..3] == text;
    assert RunEnd(text, NotLineBreak, 3, 3) == 3;
    assert RunEnd(text, NotLineBreak, 2, 3) == 3;
    assert RunEnd(text, NotLineBreak, 1, 3) == 3;
    assert RunEnd(text, NotLineBreak, 0, 3) == 3;
    assert AfterBreak(text, 3) == 3 && LinesFrom(text, 3) == [];
  }

  lemma SpacedFails(fingerprint: string -> string)
    ensures ConfigOk(TIGHT) && StructureOk(SPACED) && !Passes(TIGHT, SPACED, fingerprint)
  {
    hide LinesFrom, StripNewlines, LinesBuild, InText, BodyLimits;
    SpacedContent();
    OneCharacterOfRoom(SPACED, MermaidContent);
    var (maxChars, maxBytes) := BodyLimits(TIGHT, SPACED, MermaidContent, false);
    SpacedLine(maxBytes);
    BlankSliceFails(TIGHT, SPACED, MermaidContent, 1, 0, 1);
  }

  lemma OneCharacterOfRoom(block: Block, kind: ContentType)
    ensures BodyLimits(TIGHT, block, kind, false).0 == 1
  {
    hide EmbeddingPrefix;
  }

  lemma SpacedLine(maxBytes: nat)
    ensures SpacesInLongLine("a b", [Line(0, 3, 3)], 0, 1, 1, maxBytes)
  {
    assert ("a b")[1..2] == [' '];
  }

  /** The chunker refuses it: the space is a slice of its own. */
  method RefusesSpacedDiagram(fingerprint: string -> string) returns (r: BuildResult)
    ensures r.Failed?
  {
    hide Passes, TIGHT, SPACED, StructureOk;
    SpacedFails(fingerprint);
    ghost var t;
    r, t := Build(TIGHT, [SPACED], fingerprint);
    assert !Passes(TIGHT, [SPACED][0], fingerprint);
  }

  // ---------------------------------------------------------------- one table

  /** A header of two lines and a row. */
  const GRID: Block := Block("t", Table, "a\nb\nc", None, None, [], Span(1, 3, None), None, None)

  lemma GridLines()
    ensures LinesFrom("a\nb\nc", 0) == [Line(0, 1, 2), Line(2, 3, 4), Line(4, 5, 5)]
  {
    var text := "a\nb\nc";
    assert |text| == 5 && text[0] == 'a' && text[1] == '\n' && text[2] == 'b' && text[3] == '\n' && text[4] == 'c';
    assert RunEnd(text, NotLineBreak, 1, 5) == 1 && RunEnd(text, NotLineBreak, 0, 5) == 1 && AfterBreak(text, 1) == 2;
    assert RunEnd(text, NotLineBreak, 3, 5) == 3 && RunEnd(text, NotLineBreak, 2, 5) == 3 && AfterBreak(text, 3) == 4;
    assert RunEnd(text, NotLineBreak, 5, 5) == 5 && RunEnd(text, NotLineBreak, 4, 5) == 5 && AfterBreak(text, 5) == 5;
    assert LinesFrom(text, 5) == [] && LinesFrom(text, 4) == [Line(4, 5, 5)];
    assert LinesFrom(text, 2) == [Line(2, 3, 4), Line(4, 5, 5)];
  }

  /** With room for one character the row is replaced by a marker, and the header, visible as it is, lies in
      the range of no part. */
  lemma HeaderOfGridIsHidden(fingerprint: string -> string, parts: seq<Part>)
    requires BlockParts(TIGHT, GRID, fingerprint, parts)
    ensures !IsSpace(DraftText(GRID)[0]) && HiddenHeader(TIGHT, GRID, 0) && !Covered(parts, 0)
    ensures Omitted(TIGHT, GRID, 2)
  {
    hide LinesFrom, BodyLimits, BlockParts, Covered;
    GridLines();
    OneCharacterOfRoom(GRID, TableContent);
    assert GRID.raw[0] == 'a' && |GRID.raw| == 5;
    GridIsLong();
    EveryPositionIsCovered(TIGHT, GRID, fingerprint, parts, 0, 0);
  }

  lemma GridIsLong()
    ensures |Join([("a\nb\nc")[0..1], ("a\nb\nc")[2..3], ("a\nb\nc")[4..5]], "\n")| > 1
  {
    var parts := [("a\nb\nc")[0..1], ("a\nb\nc")[2..3], ("a\nb\nc")[4..5]];
    JoinExtends([parts[0], parts[1]], [parts[2]], "\n");
    assert Join([parts[0], parts[1]], "\n") == parts[0] + "\n" + Join([parts[0], parts[1]][1..], "\n");
    assert parts == [parts[0], parts[1]] + [parts[2]];
  }
}
