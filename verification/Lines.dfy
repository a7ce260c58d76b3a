/** Line windows over code and tables. */
module Lines {
  import opened Sequences
  import opened Unicode
  import opened Splitting

  // ------------------------------------------------------------- splitlines

  /** Python's line boundaries for `str.splitlines`. */
  predicate IsLineBreak(c: char) {
    || '\n' <= c <= '\r' || '\U{1C}' <= c <= '\U{1E}'
    || c == '\U{85}' || c == '\U{2028}' || c == '\U{2029}'
  }

  /** A line: its text is `start..stop`, with its terminator it is `start..end`. */
  datatype Line = Line(start: nat, stop: nat, end: nat)

  predicate NotLineBreak(c: char) { !IsLineBreak(c) }

  /** End of the terminator at `i`, where CR LF counts as one. */
  function AfterBreak(text: string, i: nat): (r: nat)
    requires i <= |text|
    ensures i <= r <= |text| && (i < |text| ==> i < r)
  {
    if i == |text| then i
    else if text[i] == '\r' && i + 1 < |text| && text[i + 1] == '\n' then i + 2
    else i + 1
  }

  /** `splitlines`, from position `i` on. */
  function LinesFrom(text: string, i: nat): seq<Line>
    requires i <= |text|
    decreases |text| - i
  {
    if i == |text| then []
    else
      var stop := RunEnd(text, NotLineBreak, i, |text|);
      var end := AfterBreak(text, stop);
      [Line(i, stop, end)] + LinesFrom(text, end)
  }

  /** Lines cover the text, each with a non-empty extent and its terminator at the end. */
  ghost predicate LinesOf(lines: seq<Line>, lo: nat, hi: nat) {
    && (forall k :: 0 <= k < |lines| ==>
        lines[k].start <= lines[k].stop <= lines[k].end && lines[k].start < lines[k].end)
    && (forall k :: 0 <= k < |lines| - 1 ==> lines[k].end == lines[k + 1].start)
    && (if lines == [] then lo == hi else lines[0].start == lo && lines[|lines| - 1].end == hi)
  }

  lemma {:induction false} LinesCover(text: string, i: nat)
    requires i <= |text|
    ensures LinesOf(LinesFrom(text, i), i, |text|)
    decreases |text| - i
  {
    if i < |text| {
      var lines := LinesFrom(text, i);
      var first, rest := lines[0], LinesFrom(text, lines[0].end);
      assert lines == [first] + rest;
      LinesCover(text, first.end);
      hide LinesFrom;
      forall k | 0 <= k < |lines| - 1 ensures lines[k].end == lines[k + 1].start {
        assert lines[k + 1] == rest[k] && (k > 0 ==> lines[k] == rest[k - 1]);
      }
    }
  }

  /** `_line_starts[k]` and `_line_content_end(.., k)`, which coincide. */
  function At(lines: seq<Line>, size: nat, k: nat): nat {
    if k < |lines| then lines[k].start else size
  }

  function Extents(lines: seq<Line>): seq<Range> {
    seq(|lines|, k requires 0 <= k < |lines| => (lines[k].start, lines[k].end))
  }

  lemma AtIncreases(lines: seq<Line>, size: nat, i: nat, j: nat)
    requires LinesOf(lines, 0, size) && i <= j
    ensures At(lines, size, i) <= At(lines, size, j) <= size
    ensures i < j && i < |lines| ==> At(lines, size, i) < At(lines, size, j)
    ensures i < |lines| ==> lines[i].end == At(lines, size, i + 1)
  {
    var extents := Extents(lines);
    assert Tiles(extents, 0, size);
    TilesOrdered(extents, 0, size);
    if i < j < |lines| {
      TilesIncrease(extents, 0, size, i, j);
      assert extents[i] == (lines[i].start, lines[i].end) && extents[j] == (lines[j].start, lines[j].end);
    } else if j < |lines| {
      assert extents[j] == (lines[j].start, lines[j].end);
    } else if i < |lines| {
      assert extents[i] == (lines[i].start, lines[i].end);
    }
  }

  // ------------------------------------------------------------ line groups

  function LineText(text: string, line: Line): string
    requires line.start <= line.stop <= |text|
  {
    text[line.start..line.stop]
  }

  ghost predicate InText(text: string, lines: seq<Line>) {
    LinesOf(lines, 0, |text|) && forall k :: 0 <= k < |lines| ==>
      lines[k].start <= lines[k].stop <= lines[k].end <= |text|
  }

  lemma LinesInText(text: string)
    ensures InText(text, LinesFrom(text, 0))
  {
    LinesCover(text, 0);
    var lines := LinesFrom(text, 0);
    forall k | 0 <= k < |lines| ensures lines[k].end <= |text| {
      AtIncreases(lines, |text|, k, k + 1);
      AtIncreases(lines, |text|, k + 1, k + 1);
    }
  }

  /** `"\n".join` of consecutive lines. */
  function JoinLines(text: string, lines: seq<Line>, first: nat, last: nat): string
    requires InText(text, lines) && first < last <= |lines|
    decreases last - first
  {
    if last == first + 1 then LineText(text, lines[first])
    else JoinLines(text, lines, first, last - 1) + "\n" + LineText(text, lines[last - 1])
  }

  lemma JoinHoldsLast(text: string, lines: seq<Line>, first: nat, last: nat, maxChars: nat, maxBytes: nat)
    requires InText(text, lines) && first < last <= |lines|
    requires WithinBudget(JoinLines(text, lines, first, last), maxChars, maxBytes)
    ensures WithinBudget(LineText(text, lines[last - 1]), maxChars, maxBytes)
  {
    if last > first + 1 {
      var front := JoinLines(text, lines, first, last - 1) + "\n";
      BytesConcat(front, LineText(text, lines[last - 1]));
    }
  }

  /** A draft-to-be: whole lines `first..last`, or a slice of the single line `first`. */
  datatype Group = Group(first: nat, last: nat, range: Range, display: string, whole: bool)

  function Ranges(groups: seq<Group>): seq<Range> {
    seq(|groups|, k requires 0 <= k < |groups| => groups[k].range)
  }

  lemma RangesConcat(a: seq<Group>, b: seq<Group>)
    ensures Ranges(a + b) == Ranges(a) + Ranges(b)
  {
  }

  /** A group fits its budget and its window, shows what it covers, and stopped only for a reason. */
  ghost predicate GroupOk(text: string, lines: seq<Line>, window: nat, maxChars: nat, maxBytes: nat, g: Group)
    requires InText(text, lines)
  {
    && g.first < g.last <= |lines| && WithinBudget(g.display, maxChars, maxBytes)
    && if g.whole then
         && g.last - g.first <= window && g.range == (lines[g.first].start, At(lines, |text|, g.last))
         && g.display == JoinLines(text, lines, g.first, g.last)
         && (g.last < |lines| ==> g.last - g.first == window
                                  || !WithinBudget(JoinLines(text, lines, g.first, g.last + 1), maxChars, maxBytes))
       else
         && g.last == g.first + 1 && lines[g.first].start <= g.range.0 < g.range.1 <= lines[g.first].end
         && g.display == text[g.range.0..g.range.1]
         && !WithinBudget(LineText(text, lines[g.first]), maxChars, maxBytes)
         && (g.range.1 < lines[g.first].end ==> !WithinBudget(text[g.range.0..g.range.1 + 1], maxChars, maxBytes))
  }

  ghost predicate GroupsOk(text: string, lines: seq<Line>, window: nat, maxChars: nat, maxBytes: nat,
                           groups: seq<Group>)
    requires InText(text, lines)
  {
    forall k :: 0 <= k < |groups| ==> GroupOk(text, lines, window, maxChars, maxBytes, groups[k])
  }

  function Whole(text: string, lines: seq<Line>, first: nat, last: nat): Group
    requires InText(text, lines) && first < last <= |lines|
  {
    Group(first, last, (lines[first].start, At(lines, |text|, last)), JoinLines(text, lines, first, last), true)
  }

  function Slices(text: string, k: nat, ranges: seq<Range>): seq<Group>
    requires forall i :: 0 <= i < |ranges| ==> ranges[i].0 <= ranges[i].1 <= |text|
  {
    seq(|ranges|, i requires 0 <= i < |ranges| =>
      Group(k, k + 1, ranges[i], text[ranges[i].0..ranges[i].1], false))
  }

  /** An oversized line cut at character level. */
  method SplitLine(text: string, lines: seq<Line>, k: nat, window: nat, maxChars: nat, maxBytes: nat)
    returns (r: Result<seq<Group>>)
    requires InText(text, lines) && k < |lines| && 1 <= maxChars
    requires !WithinBudget(LineText(text, lines[k]), maxChars, maxBytes)
    ensures r.Ok? ==> && GroupsOk(text, lines, window, maxChars, maxBytes, r.value)
                      && Tiles(Ranges(r.value), lines[k].start, lines[k].end)
    ensures r.Err? ==> TooWide(text, lines[k].start, lines[k].end, maxBytes)
  {
    hide WithinBudget, TooWide, JoinLines;
    var split := SplitRange(text, lines[k].start, lines[k].end, maxChars, maxBytes, 3);
    if split.Err? {
      return Err(split.error);
    }
    TilesOrdered(split.value, lines[k].start, lines[k].end);
    LastLevelIsMaximal(text, lines[k].start, lines[k].end, maxChars, maxBytes, split.value);
    var slices := Slices(text, k, split.value);
    assert Ranges(slices) == split.value;
    return Ok(slices);
  }

  /** The lines before `upTo` are grouped. */
  ghost predicate Grouped(text: string, lines: seq<Line>, window: nat, maxChars: nat, maxBytes: nat, groups: seq<Group>,
                          upTo: nat)
    requires InText(text, lines)
  {
    GroupsOk(text, lines, window, maxChars, maxBytes, groups) && Tiles(Ranges(groups), 0, At(lines, |text|, upTo))
  }

  /** The lines `first..k` form a group that is still open. */
  ghost predicate OpenGroup(text: string, lines: seq<Line>, window: nat, maxChars: nat, maxBytes: nat, first: nat,
                            k: nat)
    requires InText(text, lines)
  {
    first < k <= |lines| ==> && k - first <= window
                             && WithinBudget(JoinLines(text, lines, first, k), maxChars, maxBytes)
  }

  /** The grouping of `_line_drafts`: consecutive lines up to the window and the budget. */
  method LineGroups(text: string, lines: seq<Line>, window: nat, maxChars: nat, maxBytes: nat)
    returns (r: Result<seq<Group>>)
    requires InText(text, lines) && 1 <= window && 1 <= maxChars
    ensures r.Ok? ==> && GroupsOk(text, lines, window, maxChars, maxBytes, r.value)
                      && Tiles(Ranges(r.value), 0, |text|)
    ensures r.Err? ==> TooWide(text, 0, |text|, maxBytes)
  {
    hide WithinBudget, TooWide, JoinLines, Tiles, GroupsOk, LinesOf;
    var groups: seq<Group> := [];
    var groupStart := 0;
    NoGroups(text, lines, window, maxChars, maxBytes);
    for k := 0 to |lines|
      invariant groupStart <= k && Grouped(text, lines, window, maxChars, maxBytes, groups, groupStart)
      invariant OpenGroup(text, lines, window, maxChars, maxBytes, groupStart, k)
    {
      if groupStart < k && (k - groupStart >= window
                            || !WithinBudget(JoinLines(text, lines, groupStart, k + 1), maxChars, maxBytes)) {
        CloseGroup(text, lines, groups, groupStart, k, window, maxChars, maxBytes);
        groups := groups + [Whole(text, lines, groupStart, k)];
        groupStart := k;
      }
      if !WithinBudget(LineText(text, lines[k]), maxChars, maxBytes) {
        if groupStart < k {
          JoinHoldsLast(text, lines, groupStart, k + 1, maxChars, maxBytes);
        }
        assert groupStart == k;
        var slices := SplitLine(text, lines, k, window, maxChars, maxBytes);
        if slices.Err? {
          TooWideSplit(text, 0, lines[k].start, |text|, maxBytes);
          TooWideSplit(text, lines[k].start, lines[k].end, |text|, maxBytes);
          return Err(slices.error);
        }
        AppendSlices(text, lines, groups, k, slices.value, window, maxChars, maxBytes);
        groups := groups + slices.value;
        groupStart := k + 1;
      } else if groupStart == k {
        SingleLine(text, lines, k);
      }
    }
    if groupStart < |lines| {
      CloseGroup(text, lines, groups, groupStart, |lines|, window, maxChars, maxBytes);
      groups := groups + [Whole(text, lines, groupStart, |lines|)];
    }
    return Ok(groups);
  }

  lemma NoGroups(text: string, lines: seq<Line>, window: nat, maxChars: nat, maxBytes: nat)
    requires InText(text, lines)
    ensures Grouped(text, lines, window, maxChars, maxBytes, [], 0)
  {
    assert Ranges([]) == [];
  }

  lemma SingleLine(text: string, lines: seq<Line>, k: nat)
    requires InText(text, lines) && k < |lines|
    ensures JoinLines(text, lines, k, k + 1) == LineText(text, lines[k])
  {
  }

  lemma AppendSlices(text: string, lines: seq<Line>, groups: seq<Group>, k: nat, slices: seq<Group>,
                     window: nat, maxChars: nat, maxBytes: nat)
    requires InText(text, lines) && k < |lines| && Grouped(text, lines, window, maxChars, maxBytes, groups, k)
    requires GroupsOk(text, lines, window, maxChars, maxBytes, slices)
    requires Tiles(Ranges(slices), lines[k].start, lines[k].end)
    ensures Grouped(text, lines, window, maxChars, maxBytes, groups + slices, k + 1)
  {
    hide GroupOk, Tiles, LinesOf;
    AtIncreases(lines, |text|, k, k + 1);
    RangesConcat(groups, slices);
    TilesConcat(Ranges(groups), Ranges(slices), 0, lines[k].start, lines[k].end);
  }

  lemma CloseGroup(text: string, lines: seq<Line>, groups: seq<Group>, first: nat, last: nat,
                   window: nat, maxChars: nat, maxBytes: nat)
    requires InText(text, lines) && first < last <= |lines|
    requires Grouped(text, lines, window, maxChars, maxBytes, groups, first)
    requires OpenGroup(text, lines, window, maxChars, maxBytes, first, last)
    requires last < |lines| ==> last - first >= window
                                || !WithinBudget(JoinLines(text, lines, first, last + 1), maxChars, maxBytes)
    ensures Grouped(text, lines, window, maxChars, maxBytes, groups + [Whole(text, lines, first, last)], last)
  {
    hide JoinLines, WithinBudget, Tiles, LinesOf;
    var g := Whole(text, lines, first, last);
    assert GroupOk(text, lines, window, maxChars, maxBytes, g);
    AtIncreases(lines, |text|, first, last);
    RangesConcat(groups, [g]);
    assert Ranges([g]) == [g.range];
    OneTile(g.range.0, g.range.1);
    TilesConcat(Ranges(groups), [g.range], 0, g.range.0, g.range.1);
  }

  // ------------------------------------------------------ structural ranges

  /** `text.strip("\n")` */
  function StripNewlines(text: string): (r: string)
    ensures |r| <= |text| && Bytes(r) <= Bytes(text)
  {
    var lo := RunEnd(text, IsNewline, 0, |text|);
    var hi := LastNonNewline(text, lo, |text|);
    BytesSlice(text, 0, lo, hi, |text|);
    assert text[0..|text|] == text;
    text[lo..hi]
  }

  function LastNonNewline(text: string, lo: nat, hi: nat): (r: nat)
    requires lo <= hi <= |text|
    ensures lo <= r <= hi && (r > lo ==> text[r - 1] != '\n') && forall k :: r <= k < hi ==> text[k] == '\n'
    decreases hi - lo
  {
    if hi == lo || text[hi - 1] != '\n' then hi else LastNonNewline(text, lo, hi - 1)
  }

  /** What a group of a structural range shows. */
  ghost predicate RangeGroupOk(text: string, lines: seq<Line>, endLine: nat, window: nat, maxChars: nat, maxBytes: nat,
                               g: Group)
    requires InText(text, lines) && endLine <= |lines|
  {
    && g.first < g.last <= endLine && WithinBudget(g.display, maxChars, maxBytes)
    && At(lines, |text|, g.first) <= g.range.0 < g.range.1 <= At(lines, |text|, g.last) <= |text|
    && if g.whole then
         && g.last - g.first <= window && g.range == (lines[g.first].start, At(lines, |text|, g.last))
         && g.display == StripNewlines(text[g.range.0..g.range.1])
         && WithinBudget(text[g.range.0..g.range.1], maxChars, maxBytes)
         && (g.last < endLine && g.last - g.first < window ==>
               && g.range.1 <= At(lines, |text|, g.last + 1) <= |text|
               && !WithinBudget(text[g.range.0..At(lines, |text|, g.last + 1)], maxChars, maxBytes))
       else
         && g.last == g.first + 1 && g.display == text[g.range.0..g.range.1]
         && !WithinBudget(text[At(lines, |text|, g.first)..At(lines, |text|, g.last)], maxChars, maxBytes)
         && (g.range.1 < At(lines, |text|, g.last) ==>
             !WithinBudget(text[g.range.0..g.range.1 + 1], maxChars, maxBytes))
  }

  ghost predicate RangeGroupsOk(text: string, lines: seq<Line>, endLine: nat, window: nat, maxChars: nat, maxBytes: nat,
                                groups: seq<Group>)
    requires InText(text, lines) && endLine <= |lines|
  {
    forall k :: 0 <= k < |groups| ==> RangeGroupOk(text, lines, endLine, window, maxChars, maxBytes, groups[k])
  }

  /** The inner loop of `_line_drafts_for_range`: as many lines as fit, but at least one. */
  method SelectLines(text: string, lines: seq<Line>, cursor: nat, endLine: nat, window: nat, maxChars: nat,
                     maxBytes: nat)
    returns (selected: nat)
    requires InText(text, lines) && cursor < endLine <= |lines| && 1 <= window
    ensures cursor < selected <= endLine && selected - cursor <= window
    ensures At(lines, |text|, cursor) <= At(lines, |text|, selected) <= |text|
    ensures WithinBudget(text[At(lines, |text|, cursor)..At(lines, |text|, selected)], maxChars, maxBytes)
            || selected == cursor + 1
    ensures selected < endLine && WithinBudget(text[At(lines, |text|, cursor)..At(lines, |text|, selected)], maxChars,
            maxBytes)
            && selected - cursor < window ==>
              At(lines, |text|, selected) <= At(lines, |text|, selected + 1) <= |text|
              && !WithinBudget(text[At(lines, |text|, cursor)..At(lines, |text|, selected + 1)], maxChars, maxBytes)
  {
    hide WithinBudget;
    AtIncreases(lines, |text|, cursor, cursor + 1);
    var start := lines[cursor].start;
    selected := cursor;
    while selected < endLine && selected - cursor < window
      invariant cursor <= selected <= endLine && selected - cursor <= window
      invariant start <= At(lines, |text|, selected) <= |text|
      invariant selected > cursor ==> WithinBudget(text[start..At(lines, |text|, selected)], maxChars, maxBytes)
      decreases endLine - selected
    {
      AtIncreases(lines, |text|, cursor, selected + 1);
      var fits := WithinBudget(text[start..At(lines, |text|, selected + 1)], maxChars, maxBytes);
      if selected > cursor && !fits {
        break;
      }
      selected := selected + 1;
      if !fits {
        break;
      }
    }
  }

  /** `_line_drafts_for_range` */
  method RangeGroups(text: string, lines: seq<Line>, startLine: nat, endLine: nat, window: nat, maxChars: nat,
                     maxBytes: nat)
    returns (r: Result<seq<Group>>)
    requires InText(text, lines) && startLine <= endLine <= |lines| && 1 <= window && 1 <= maxChars
    ensures r.Ok? ==> && RangeGroupsOk(text, lines, endLine, window, maxChars, maxBytes, r.value)
                      && Tiles(Ranges(r.value), At(lines, |text|, startLine), At(lines, |text|, endLine))
    ensures r.Err? ==> TooWide(text, 0, |text|, maxBytes)
  {
    hide WithinBudget, TooWide, Tiles, StripNewlines;
    var groups: seq<Group> := [];
    var cursor := startLine;
    assert Ranges([]) == [];
    NoTiles(At(lines, |text|, startLine));
    while cursor < endLine
      invariant startLine <= cursor <= endLine
      invariant RangeGroupsOk(text, lines, endLine, window, maxChars, maxBytes, groups)
      invariant Tiles(Ranges(groups), At(lines, |text|, startLine), At(lines, |text|, cursor))
    {
      var selected := SelectLines(text, lines, cursor, endLine, window, maxChars, maxBytes);
      AtIncreases(lines, |text|, cursor, selected);
      var start, end := lines[cursor].start, At(lines, |text|, selected);
      var more: seq<Group>;
      if !WithinBudget(text[start..end], maxChars, maxBytes) {
        var split := SplitRange(text, start, end, maxChars, maxBytes, 3);
        if split.Err? {
          TooWideSplit(text, 0, start, |text|, maxBytes);
          TooWideSplit(text, start, end, |text|, maxBytes);
          return Err(split.error);
        }
        TilesOrdered(split.value, start, end);
        LastLevelIsMaximal(text, start, end, maxChars, maxBytes, split.value);
        more := Slices(text, cursor, split.value);
        assert Ranges(more) == split.value;
        SlicesOk(text, lines, cursor, split.value, endLine, window, maxChars, maxBytes);
      } else {
        var g := Group(cursor, selected, (start, end), StripNewlines(text[start..end]), true);
        StripFits(text[start..end], maxChars, maxBytes);
        OneTile(start, end);
        more := [g];
        assert Ranges(more) == [(start, end)];
      }
      RangesConcat(groups, more);
      TilesConcat(Ranges(groups), Ranges(more), At(lines, |text|, startLine), start, end);
      groups := groups + more;
      cursor := selected;
    }
    return Ok(groups);
  }

  lemma StripFits(text: string, maxChars: nat, maxBytes: nat)
    requires WithinBudget(text, maxChars, maxBytes)
    ensures WithinBudget(StripNewlines(text), maxChars, maxBytes)
  {
  }

  lemma SlicesOk(text: string, lines: seq<Line>, k: nat, ranges: seq<Range>, endLine: nat, window: nat,
                 maxChars: nat, maxBytes: nat)
    requires InText(text, lines) && k < endLine <= |lines| && AllWithin(text, ranges, maxChars, maxBytes)
    requires Tiles(ranges, At(lines, |text|, k), At(lines, |text|, k + 1))
    requires At(lines, |text|, k) <= At(lines, |text|, k + 1) <= |text|
    requires !WithinBudget(text[At(lines, |text|, k)..At(lines, |text|, k + 1)], maxChars, maxBytes)
    requires Maximal(text, ranges, At(lines, |text|, k + 1), maxChars, maxBytes)
    ensures RangeGroupsOk(text, lines, endLine, window, maxChars, maxBytes, Slices(text, k, ranges))
  {
    hide WithinBudget, StripNewlines;
    TilesOrdered(ranges, At(lines, |text|, k), At(lines, |text|, k + 1));
  }

  // ---------------------------------------------------------------- uniqueness

  /** A position lies in one line only. */
  lemma SameLine(text: string, lines: seq<Line>, i: nat, j: nat, p: nat)
    requires InText(text, lines) && i < |lines| && j < |lines|
    requires lines[i].start <= p < lines[i].end && lines[j].start <= p < lines[j].end
    ensures i == j
  {
    var extents := Extents(lines);
    assert Tiles(extents, 0, |text|);
    assert extents[i] == (lines[i].start, lines[i].end) && extents[j] == (lines[j].start, lines[j].end);
    StartInside(extents, 0, |text|, i, p);
  }

  /** If more lines fit together, fewer do. */
  lemma {:induction false} FewerFit(text: string, lines: seq<Line>, first: nat, fewer: nat, more: nat, maxChars: nat,
                                    maxBytes: nat)
    requires InText(text, lines) && first < fewer <= more <= |lines|
    requires WithinBudget(JoinLines(text, lines, first, more), maxChars, maxBytes)
    ensures WithinBudget(JoinLines(text, lines, first, fewer), maxChars, maxBytes)
    decreases more
  {
    hide LinesOf;
    if fewer < more {
      var front := JoinLines(text, lines, first, more - 1);
      BytesConcat(front, "\n" + LineText(text, lines[more - 1]));
      assert JoinLines(text, lines, first, more) == front + ("\n" + LineText(text, lines[more - 1]));
      FewerFit(text, lines, first, fewer, more - 1, maxChars, maxBytes);
    }
  }

  lemma GroupStart(text: string, lines: seq<Line>, window: nat, maxChars: nat, maxBytes: nat, g: Group)
    requires InText(text, lines) && GroupOk(text, lines, window, maxChars, maxBytes, g)
    ensures g.first < |lines| && lines[g.first].start <= g.range.0 < lines[g.first].end
    ensures g.range.1 <= |text|
    ensures g.whole <==> WithinBudget(LineText(text, lines[g.first]), maxChars, maxBytes)
  {
    hide WithinBudget, LinesOf;
    AtIncreases(lines, |text|, g.first, g.first + 1);
    AtIncreases(lines, |text|, g.first, g.last);
    if g.whole {
      FewerFit(text, lines, g.first, g.first + 1, g.last, maxChars, maxBytes);
    }
  }

  lemma NotFewer(text: string, lines: seq<Line>, window: nat, maxChars: nat, maxBytes: nat, g: Group, h: Group)
    requires InText(text, lines) && g.first == h.first && g.whole && h.whole
    requires GroupOk(text, lines, window, maxChars, maxBytes, g) && GroupOk(text, lines, window, maxChars, maxBytes, h)
    ensures g.last >= h.last
  {
    hide WithinBudget, LinesOf, JoinLines;
    if g.last < h.last {
      FewerFit(text, lines, h.first, g.last + 1, h.last, maxChars, maxBytes);
    }
  }

  /** Where a group starts determines it. */
  lemma SameGroup(text: string, lines: seq<Line>, window: nat, maxChars: nat, maxBytes: nat, g: Group, h: Group)
    requires InText(text, lines) && g.range.0 == h.range.0
    requires GroupOk(text, lines, window, maxChars, maxBytes, g) && GroupOk(text, lines, window, maxChars, maxBytes, h)
    ensures g == h
  {
    hide WithinBudget, LinesOf, JoinLines;
    GroupStart(text, lines, window, maxChars, maxBytes, g);
    GroupStart(text, lines, window, maxChars, maxBytes, h);
    SameLine(text, lines, g.first, h.first, g.range.0);
    if g.whole {
      NotFewer(text, lines, window, maxChars, maxBytes, g, h);
      NotFewer(text, lines, window, maxChars, maxBytes, h, g);
    } else {
      LongestSlice(text, g.range, h.range, lines[g.first].end, maxChars, maxBytes);
    }
  }

  lemma LongestSlice(text: string, a: Range, b: Range, end: nat, maxChars: nat, maxBytes: nat)
    requires a.0 == b.0 && a.0 < a.1 <= end <= |text| && b.0 < b.1 <= end
    requires WithinBudget(text[a.0..a.1], maxChars, maxBytes) && WithinBudget(text[b.0..b.1], maxChars, maxBytes)
    requires a.1 < end ==> !WithinBudget(text[a.0..a.1 + 1], maxChars, maxBytes)
    requires b.1 < end ==> !WithinBudget(text[b.0..b.1 + 1], maxChars, maxBytes)
    ensures a == b
  {
    hide WithinBudget;
    if a.1 < b.1 {
      SliceWithin(text, a.0, a.0, a.1 + 1, b.1, maxChars, maxBytes);
    } else if b.1 < a.1 {
      SliceWithin(text, b.0, b.0, b.1 + 1, a.1, maxChars, maxBytes);
    }
  }

  lemma GroupsEqual(a: seq<Group>, b: seq<Group>, lo: nat, hi: nat)
    requires Tiles(Ranges(a), lo, hi) && Tiles(Ranges(b), lo, hi)
    requires forall i, j :: 0 <= i < |a| && 0 <= j < |b| && a[i].range.0 == b[j].range.0 ==> a[i] == b[j]
    ensures a == b
  {
    var x, y := Ranges(a), Ranges(b);
    forall i, j | 0 <= i < |x| && 0 <= j < |y| && x[i].0 == y[j].0 ensures x[i] == y[j] {
      assert x[i] == a[i].range && y[j] == b[j].range;
    }
    TilesEqual(x, y, lo, hi);
    forall i | 0 <= i < |a| ensures a[i] == b[i] {
      assert x[i] == a[i].range && y[i] == b[i].range;
    }
  }

  /** A text has only one grouping into windows of lines. */
  lemma GroupsDetermined(text: string, lines: seq<Line>, window: nat, maxChars: nat, maxBytes: nat, a: seq<Group>,
                         b: seq<Group>)
    requires InText(text, lines) && Tiles(Ranges(a), 0, |text|) && Tiles(Ranges(b), 0, |text|)
    requires GroupsOk(text, lines, window, maxChars, maxBytes, a)
             && GroupsOk(text, lines, window, maxChars, maxBytes, b)
    ensures a == b
  {
    hide GroupOk, Tiles, InText;
    forall i, j | 0 <= i < |a| && 0 <= j < |b| && a[i].range.0 == b[j].range.0 ensures a[i] == b[j] {
      SameGroup(text, lines, window, maxChars, maxBytes, a[i], b[j]);
    }
    GroupsEqual(a, b, 0, |text|);
  }

  lemma RangeGroupStart(text: string, lines: seq<Line>, endLine: nat, window: nat, maxChars: nat, maxBytes: nat,
                        g: Group)
    requires InText(text, lines) && endLine <= |lines| && RangeGroupOk(text, lines, endLine, window, maxChars,
             maxBytes, g)
    ensures g.first < |lines| && lines[g.first].start <= g.range.0 < lines[g.first].end <= |text|
    ensures g.whole <==> WithinBudget(text[lines[g.first].start..lines[g.first].end], maxChars, maxBytes)
  {
    hide WithinBudget, LinesOf, StripNewlines;
    AtIncreases(lines, |text|, g.first, g.first + 1);
    AtIncreases(lines, |text|, g.first + 1, g.last);
    if g.whole {
      SliceWithin(text, g.range.0, g.range.0, lines[g.first].end, g.range.1, maxChars, maxBytes);
    }
  }

  lemma RangeNotFewer(text: string, lines: seq<Line>, endLine: nat, window: nat, maxChars: nat, maxBytes: nat,
                      g: Group, h: Group)
    requires InText(text, lines) && endLine <= |lines| && g.first == h.first && g.whole && h.whole
    requires RangeGroupOk(text, lines, endLine, window, maxChars, maxBytes, g)
    requires RangeGroupOk(text, lines, endLine, window, maxChars, maxBytes, h)
    ensures g.last >= h.last
  {
    hide WithinBudget, LinesOf, StripNewlines;
    if g.last < h.last {
      AtIncreases(lines, |text|, g.last + 1, h.last);
      SliceWithin(text, h.range.0, h.range.0, At(lines, |text|, g.last + 1), h.range.1, maxChars, maxBytes);
    }
  }

  lemma SameRangeGroup(text: string, lines: seq<Line>, endLine: nat, window: nat, maxChars: nat, maxBytes: nat,
                       g: Group, h: Group)
    requires InText(text, lines) && endLine <= |lines| && g.range.0 == h.range.0
    requires RangeGroupOk(text, lines, endLine, window, maxChars, maxBytes, g)
    requires RangeGroupOk(text, lines, endLine, window, maxChars, maxBytes, h)
    ensures g == h
  {
    hide WithinBudget, LinesOf, StripNewlines;
    RangeGroupStart(text, lines, endLine, window, maxChars, maxBytes, g);
    RangeGroupStart(text, lines, endLine, window, maxChars, maxBytes, h);
    SameLine(text, lines, g.first, h.first, g.range.0);
    if g.whole {
      RangeNotFewer(text, lines, endLine, window, maxChars, maxBytes, g, h);
      RangeNotFewer(text, lines, endLine, window, maxChars, maxBytes, h, g);
    } else {
      LongestSlice(text, g.range, h.range, At(lines, |text|, g.last), maxChars, maxBytes);
    }
  }

  /** Nor has a range of lines more than one. */
  lemma RangeGroupsDetermined(text: string, lines: seq<Line>, endLine: nat, window: nat, maxChars: nat, maxBytes: nat,
                              lo: nat, hi: nat, a: seq<Group>, b: seq<Group>)
    requires InText(text, lines) && endLine <= |lines| && Tiles(Ranges(a), lo, hi) && Tiles(Ranges(b), lo, hi)
    requires RangeGroupsOk(text, lines, endLine, window, maxChars, maxBytes, a)
    requires RangeGroupsOk(text, lines, endLine, window, maxChars, maxBytes, b)
    ensures a == b
  {
    hide RangeGroupOk, Tiles, InText;
    forall i, j | 0 <= i < |a| && 0 <= j < |b| && a[i].range.0 == b[j].range.0 ensures a[i] == b[j] {
      SameRangeGroup(text, lines, endLine, window, maxChars, maxBytes, a[i], b[j]);
    }
    GroupsEqual(a, b, lo, hi);
  }
}
