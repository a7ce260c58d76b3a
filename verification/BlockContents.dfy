/** Drafts and merged runs in terms of their blocks: text, kind, limits and place in the source. */
module BlockContents {
  import opened Sequences
  import opened Unicode
  import opened Splitting
  import opened Texts
  import opened Lines
  import opened Tables
  import opened Drafts
  import opened Embedding
  import opened Spans
  import opened Shapes
  import opened Parts

  // ------------------------------------------------------------------ text and kind

  /** The text between the newlines at either end. */
  predicate WithoutNewlines(text: string, inner: string) {
    exists i, j :: && 0 <= i <= j <= |text| && inner == text[i..j]
                   && (forall k :: 0 <= k < |text| && (k < i || j <= k) ==> text[k] == '\n')
                   && (inner != "" ==> inner[0] != '\n' && inner[|inner| - 1] != '\n')
  }

  /** What is cut into drafts: the source of a table; the plain text of code and diagrams without the newlines around
      it; the plain text of a paragraph, and of other prose that has a projection; otherwise the source. */
  lemma DraftTextMeans(block: Block)
    ensures var plain := if block.plain.Some? then block.plain.value else "";
            && (block.kind == Table ==> DraftText(block) == block.raw)
            && (block.kind in {Code, Mermaid} ==> WithoutNewlines(plain, DraftText(block)))
            && (block.kind == Paragraph ==> DraftText(block) == plain)
            && (block.kind !in {Table, Code, Mermaid, Paragraph} ==>
                  DraftText(block) == if block.projection.Some? then plain else block.raw)
  {
    if block.kind in {Code, Mermaid} {
      StripMeans(OrBlank(block.plain));
    }
  }

  lemma StripMeans(text: string)
    ensures WithoutNewlines(text, StripNewlines(text))
  {
    var lo := RunEnd(text, IsNewline, 0, |text|);
    var hi := LastNonNewline(text, lo, |text|);
    if lo < hi {
      assert text[lo..hi][0] == text[lo] && text[lo..hi][hi - lo - 1] == text[hi - 1];
    }
  }

  /** The kind of content a kind of block is announced and stored as. */
  predicate KindOf(kind: BlockType, content: ContentType) {
    && (kind == Paragraph <==> content == TextContent) && (kind == ListBlock <==> content == ListContent)
    && (kind == Blockquote <==> content == QuoteContent) && (kind == Callout <==> content == CalloutContent)
    && (kind == Code <==> content == CodeContent) && (kind == Mermaid <==> content == MermaidContent)
    && (kind == Table <==> content == TableContent)
  }

  predicate Mergeable(kind: BlockType) { kind == Paragraph || kind == ListBlock || kind == Blockquote }

  /** A text fits a chunk of this block: so many characters, and with everything embedded so many tokens. */
  predicate Fit(c: Config, block: Block, kind: ContentType, maxChars: int, text: string) {
    |text| <= maxChars && Bytes(EmbeddingText(c, block, text, kind)) <= 4 * c.maxTokens
  }

  /** The body limits are just that. */
  lemma FitMeans(c: Config, block: Block, kind: ContentType, useTarget: bool, text: string)
    requires ConfigOk(c)
    ensures WithinBudget(text, BodyLimits(c, block, kind, useTarget).0, BodyLimits(c, block, kind, useTarget).1) <==>
            Fit(c, block, kind, if useTarget then c.targetChars else c.hardLimitChars, text)
  {
    hide EmbeddingPrefix;
    LimitsLeaveRoom(c, block, kind, useTarget);
    var prefix := EmbeddingPrefix(c, block, kind);
    if prefix != "" {
      BytesConcat(prefix + "\n\n", text);
      BytesConcat(prefix, "\n\n");
      assert Bytes("\n\n") == 2;
    }
  }

  /** Every draft of a block is of that block and of its kind. It may merge with its neighbours exactly if the block is
      a paragraph, list or quotation whose whole text fits, and then it shows the whole text. */
  lemma DraftsMean(c: Config, block: Block, fingerprint: string -> string, drafts: seq<Draft>, k: nat)
    requires ConfigOk(c) && BlockShown(c, block, fingerprint, drafts) && k < |drafts|
    ensures drafts[k].blocks == [block] && KindOf(block.kind, drafts[k].kind)
    ensures drafts[k].mergeable <==>
            && Mergeable(block.kind)
            && Fit(c, block, drafts[k].kind, if block.kind == Paragraph then c.targetChars else c.hardLimitChars,
                DraftText(block))
    ensures drafts[k].mergeable ==> drafts[k].display == DraftText(block)
  {
    hide LineWindows, RangeWindows, RowWindows, ProsePieces, Located, Blank, LinesFrom, StripNewlines, BodyLimits,
         FitsWhole, IsMarker,
         WithGaps, BlankRange, Fit, PythonShown;
    if block.kind == Code && IsPython(block.language) && block.structure.Some? {
      PythonStaysAlone(c, block, drafts, k);
      PythonDrafted(c, block, drafts, k);
    } else if block.kind !in {Code, Mermaid, Table} {
      var pieces :| ProseShown(c, block, pieces, drafts);
      ProseMerges(c, block, pieces, drafts, k);
    }
  }

  lemma ProseMerges(c: Config, block: Block, pieces: seq<Range>, drafts: seq<Draft>, k: nat)
    requires ConfigOk(c) && ProseShown(c, block, pieces, drafts) && k < |drafts|
    ensures drafts[k].mergeable <==>
            && Mergeable(block.kind)
            && Fit(c, block, drafts[k].kind, if block.kind == Paragraph then c.targetChars else c.hardLimitChars,
                ProseText(block))
    ensures drafts[k].mergeable ==> drafts[k].display == ProseText(block)
  {
    hide Located, BodyLimits, Fit, WithinBudget, Packing, Maximal;
    var text, kind := ProseText(block), ProseKind(block.kind);
    FitMeans(c, block, kind, block.kind == Paragraph, text);
    assert text[0..|text|] == text;
    var (maxChars, maxBytes) := BodyLimits(c, block, kind, block.kind == Paragraph);
    if |pieces| == 1 {
      OnePiece(text, maxChars, maxBytes, pieces);
      assert Solid(text, pieces)[k].range in pieces;
    }
  }

  lemma OnePiece(text: string, maxChars: nat, maxBytes: nat, pieces: seq<Range>)
    requires Split(text, 0, |text|, maxChars, maxBytes, 0, pieces) && |pieces| == 1
    ensures pieces[0] == (0, |text|) && WithinBudget(text, maxChars, maxBytes)
  {
    hide Packing, Maximal, WithinBudget;
    assert text[0..|text|] == text;
  }

  lemma PythonDrafted(c: Config, block: Block, drafts: seq<Draft>, k: nat)
    requires block.structure.Some? && c.codeWindowLines >= 0 && PythonShown(c, block, drafts) && k < |drafts|
    ensures drafts[k].blocks == [block] && drafts[k].kind == CodeContent
  {
    hide LineWindows, RangeWindows, Located, Blank, LinesFrom, StripNewlines, BlankRange, WithGaps;
    if block.structure.value != [] && Content(block) != "" {
      var lines, ranges := LinesFrom(Content(block), 0), PythonRanges(block);
      var parts :| |parts| == |ranges| && drafts == Flatten(parts) && AllRangesShown(c, block, lines, ranges, parts);
      FlattenMember(parts, drafts[k]);
      var i :| 0 <= i < |parts| && drafts[k] in parts[i];
      assert SomehowShown(c, block, lines, ranges[i], parts[i]);
    }
  }

  /** Which languages are taken for Python. */
  lemma PythonIsSpelled(language: string)
    ensures IsPython(Some(language)) <==>
            || (|language| == 2 && language[0] in "pP" && language[1] in "yY")
            || (&& |language| == 6 && language[0] in "pP" && language[1] in "yY" && language[2] in "tT"
                && language[3] in "hH" && language[4] in "oO" && language[5] in "nN")
  {
    var lower := seq(|language|, k requires 0 <= k < |language| => Lower(language[k]));
    if |language| == 2 {
      assert lower == [Lower(language[0]), Lower(language[1])];
    } else if |language| == 6 {
      assert lower == [Lower(language[0]), Lower(language[1]), Lower(language[2]), Lower(language[3]),
             Lower(language[4]),
                       Lower(language[5])];
    }
  }

  // --------------------------------------------------------------------- merged runs

  /** Two drafts can be one exactly if they are of one mergeable kind under the same headings and their joined display
      fits the target. */
  lemma MergePairDecides(c: Config, left: Draft, right: Draft)
    requires ConfigOk(c) && left.blocks != [] && right.blocks != []
    ensures MergePair(c, left, right).Some? <==>
            && left.kind == right.kind && left.kind in {TextContent, ListContent, QuoteContent}
            && left.blocks[0].headingPath == right.blocks[0].headingPath
            && Fit(c, left.blocks[0], left.kind, c.targetChars, left.display + "\n\n" + right.display)
  {
    hide BodyLimits, Fit, WithinBudget;
    FitMeans(c, left.blocks[0], left.kind, true, left.display + "\n\n" + right.display);
  }

  function Displays(stream: Stream, lo: nat, hi: nat): seq<string>
    requires lo <= hi <= |stream| && forall p :: lo <= p < hi ==> stream[p].Some?
  {
    seq(hi - lo, i requires 0 <= i < hi - lo => stream[lo + i].value.display)
  }

  /** A merged span covers the lines of its run and nothing beyond them. */
  ghost predicate CoversLines(stream: Stream, lo: nat, hi: nat, span: Span)
    requires lo < hi <= |stream| && forall p :: lo <= p < hi ==> stream[p].Some?
  {
    && (forall p :: lo <= p < hi ==>
          span.startLine <= stream[p].value.span.startLine && stream[p].value.span.endLine <= span.endLine)
    && (exists p :: lo <= p < hi && stream[p].value.span.startLine == span.startLine)
    && (exists p :: lo <= p < hi && stream[p].value.span.endLine == span.endLine)
  }

  /** It has offsets if all of them do, and then covers theirs and nothing beyond. */
  ghost predicate CoversOffsets(stream: Stream, lo: nat, hi: nat, span: Span)
    requires lo < hi <= |stream| && forall p :: lo <= p < hi ==> stream[p].Some?
  {
    && (span.offsets.Some? <==> forall p :: lo <= p < hi ==> stream[p].value.span.offsets.Some?)
    && (span.offsets.Some? ==>
          && (forall p :: lo <= p < hi ==> && span.offsets.value.0 <= stream[p].value.span.offsets.value.0
                                           && stream[p].value.span.offsets.value.1 <= span.offsets.value.1)
          && (exists p :: lo <= p < hi && stream[p].value.span.offsets.value.0 == span.offsets.value.0)
          && (exists p :: lo <= p < hi && stream[p].value.span.offsets.value.1 == span.offsets.value.1))
  }

  /** Every entry of the run is a draft under the headings of the first, and of the same kind. */
  ghost predicate OneContext(stream: Stream, lo: nat, hi: nat, d: Draft)
    requires lo < hi <= |stream|
  {
    d.blocks != [] && forall p :: lo <= p < hi ==>
      && stream[p].Some? && stream[p].value.blocks != [] && stream[p].value.kind == d.kind
      && stream[p].value.blocks[0].headingPath == d.blocks[0].headingPath
  }

  lemma RunParts(c: Config, stream: Stream, lo: nat, hi: nat, d: Draft) returns (left: Draft)
    requires lo + 1 < hi <= |stream| && StreamOk(c, stream) && MergedRun(c, stream, lo, hi, d)
    ensures MergedRun(c, stream, lo, hi - 1, left) && left.blocks != [] && stream[hi - 1].Some?
    ensures stream[hi - 1].value.blocks != [] && d.blocks == left.blocks + stream[hi - 1].value.blocks
    ensures left.kind == stream[hi - 1].value.kind == d.kind
    ensures left.blocks[0].headingPath == stream[hi - 1].value.blocks[0].headingPath
    ensures d.display == left.display + "\n\n" + stream[hi - 1].value.display
    ensures d.span == UnionSpan(left.span, stream[hi - 1].value.span)
  {
    hide WithinBudget, BodyLimits;
    left :| MergedRun(c, stream, lo, hi - 1, left) && left.mergeable && left.blocks != []
            && MergePair(c, left, stream[hi - 1].value) == Some(d) && OneIsShort(c, left, stream[hi - 1].value);
  }

  /** What a merged draft is, in terms of its run: one context, the displays in order with blank lines between, and
      the least span that covers them. */
  lemma {:induction false} RunMeans(c: Config, stream: Stream, lo: nat, hi: nat, d: Draft)
    requires lo < hi <= |stream| && StreamOk(c, stream) && MergedRun(c, stream, lo, hi, d) && stream[lo].Some?
    ensures OneContext(stream, lo, hi, d)
    ensures IsJoined(Displays(stream, lo, hi), "\n\n", d.display)
    ensures CoversLines(stream, lo, hi, d.span) && CoversOffsets(stream, lo, hi, d.span)
    decreases hi - lo
  {
    hide MergePair, CoversLines, CoversOffsets, IsJoined, OneIsShort, StreamOk;
    if hi == lo + 1 {
      SingleRun(c, stream, lo, d);
    } else {
      var left := RunParts(c, stream, lo, hi, d);
      RunMeans(c, stream, lo, hi - 1, left);
      JoinedRun(stream, lo, hi, left, d);
      MoreLines(stream, lo, hi, left.span, d.span);
      MoreOffsets(stream, lo, hi, left.span, d.span);
    }
  }

  lemma SingleRun(c: Config, stream: Stream, lo: nat, d: Draft)
    requires lo < |stream| && StreamOk(c, stream) && stream[lo] == Some(d)
    ensures OneContext(stream, lo, lo + 1, d) && IsJoined(Displays(stream, lo, lo + 1), "\n\n", d.display)
    ensures CoversLines(stream, lo, lo + 1, d.span) && CoversOffsets(stream, lo, lo + 1, d.span)
  {
    hide WithinBudget, BodyLimits;
    assert stream[lo].value == d;
    assert Displays(stream, lo, lo + 1) == [d.display];
  }

  lemma JoinedRun(stream: Stream, lo: nat, hi: nat, left: Draft, d: Draft)
    requires lo + 1 < hi <= |stream| && (forall p :: lo <= p < hi ==> stream[p].Some?)
    requires IsJoined(Displays(stream, lo, hi - 1), "\n\n", left.display)
    requires d.display == left.display + "\n\n" + stream[hi - 1].value.display
    ensures IsJoined(Displays(stream, lo, hi), "\n\n", d.display)
  {
    var all := Displays(stream, lo, hi);
    assert all[..|all| - 1] == Displays(stream, lo, hi - 1);
    assert all[|all| - 1] == stream[hi - 1].value.display;
  }

  lemma MoreLines(stream: Stream, lo: nat, hi: nat, left: Span, span: Span)
    requires lo + 1 < hi <= |stream| && (forall p :: lo <= p < hi ==> stream[p].Some?)
    requires CoversLines(stream, lo, hi - 1, left) && span == UnionSpan(left, stream[hi - 1].value.span)
    ensures CoversLines(stream, lo, hi, span)
  {
    var last := stream[hi - 1].value.span;
    var a :| lo <= a < hi - 1 && stream[a].value.span.startLine == left.startLine;
    var b :| lo <= b < hi - 1 && stream[b].value.span.endLine == left.endLine;
    var i, j := if left.startLine < last.startLine then a else hi - 1,
        if left.endLine > last.endLine then b else hi - 1;
    assert stream[i].value.span.startLine == span.startLine && stream[j].value.span.endLine == span.endLine;
  }

  lemma MoreOffsets(stream: Stream, lo: nat, hi: nat, left: Span, span: Span)
    requires lo + 1 < hi <= |stream| && (forall p :: lo <= p < hi ==> stream[p].Some?)
    requires CoversOffsets(stream, lo, hi - 1, left) && span == UnionSpan(left, stream[hi - 1].value.span)
    ensures CoversOffsets(stream, lo, hi, span)
  {
    var last := stream[hi - 1].value.span;
    if span.offsets.Some? {
      var x :| lo <= x < hi - 1 && stream[x].value.span.offsets.value.0 == left.offsets.value.0;
      var y :| lo <= y < hi - 1 && stream[y].value.span.offsets.value.1 == left.offsets.value.1;
      var m, n := if left.offsets.value.0 < last.offsets.value.0 then x else hi - 1,
                  if left.offsets.value.1 > last.offsets.value.1 then y else hi - 1;
      assert stream[m].value.span.offsets.value.0 == span.offsets.value.0;
      assert stream[n].value.span.offsets.value.1 == span.offsets.value.1;
    }
  }

  // ---------------------------------------------------------------- place in the source

  /** Where the newlines before a place are. */
  function Newlines(raw: string, i: nat): set<nat> { set k: nat | k < i && k < |raw| && raw[k] == '\n' }

  lemma {:induction false} NewlinesCounted(raw: string, i: nat)
    requires i <= |raw|
    ensures CountNewlines(raw[..i]) == |Newlines(raw, i)|
  {
    if i > 0 {
      NewlinesCounted(raw, i - 1);
      assert raw[..i] == raw[..i - 1] + [raw[i - 1]];
      NewlinesConcat(raw[..i - 1], [raw[i - 1]]);
      if raw[i - 1] == '\n' {
        assert Newlines(raw, i) == Newlines(raw, i - 1) + {i - 1};
      } else {
        assert Newlines(raw, i) == Newlines(raw, i - 1);
      }
    } else {
      assert Newlines(raw, 0) == {};
    }
  }

  /** The span of a range of a block's source: the lines of its first and of its last character, and its offsets. */
  lemma SpanMeans(block: Block, b: Range)
    requires b.0 < b.1 <= |block.raw|
    ensures var span := SpanOf(block, b);
            && span.startLine == block.span.startLine + |Newlines(block.raw, b.0)|
            && span.endLine == block.span.startLine + |Newlines(block.raw, b.1 - 1)|
            && (block.span.offsets.None? ==> span.offsets == None)
            && (block.span.offsets.Some? ==>
                  span.offsets == Some((block.span.offsets.value.0 + b.0, block.span.offsets.value.0 + b.1)))
  {
    NewlinesCounted(block.raw, b.0);
    NewlinesCounted(block.raw, b.1 - 1);
  }

  /** A projection row of six numbers that meets a slice. */
  predicate Meets(row: seq<nat>, start: nat, end: nat) { |row| == 6 && row[0] < end && start < row[1] }

  lemma {:induction false} MeetingEnds(rows: seq<seq<nat>>, start: nat, end: nat, i: nat, j: nat)
    requires i <= j < |rows| && Meets(rows[i], start, end) && Meets(rows[j], start, end)
    requires forall k :: 0 <= k < i || j < k < |rows| ==> !Meets(rows[k], start, end)
    ensures var met := MeetingRows(rows, start, end); met != [] && met[0] == rows[i] && met[|met| - 1] == rows[j]
    decreases |rows|
  {
    if i > 0 {
      MeetingEnds(rows[1..], start, end, i - 1, j - 1);
    } else if j > 0 {
      LastMeeting(rows[1..], start, end, j - 1);
    } else {
      NoneMeeting(rows[1..], start, end);
    }
  }

  lemma {:induction false} LastMeeting(rows: seq<seq<nat>>, start: nat, end: nat, j: nat)
    requires j < |rows| && Meets(rows[j], start, end) && forall k :: j < k < |rows| ==> !Meets(rows[k], start, end)
    ensures var met := MeetingRows(rows, start, end); met != [] && met[|met| - 1] == rows[j]
    decreases |rows|
  {
    if j > 0 {
      LastMeeting(rows[1..], start, end, j - 1);
    } else {
      NoneMeeting(rows[1..], start, end);
    }
  }

  lemma {:induction false} NoneMeeting(rows: seq<seq<nat>>, start: nat, end: nat)
    requires forall k :: 0 <= k < |rows| ==> !Meets(rows[k], start, end)
    ensures MeetingRows(rows, start, end) == []
    decreases |rows|
  {
    if rows != [] {
      NoneMeeting(rows[1..], start, end);
    }
  }

  /** A projected slice begins where its first row does, or as far into it as the slice begins; and ends likewise. */
  lemma ProjectionMeans(rows: seq<seq<nat>>, start: nat, end: nat, i: nat, j: nat)
    requires i <= j < |rows| && Meets(rows[i], start, end) && Meets(rows[j], start, end)
    requires forall k :: 0 <= k < i || j < k < |rows| ==> !Meets(rows[k], start, end)
    ensures ProjectedBounds(Some(rows), start, end).Some?
    ensures var b := ProjectedBounds(Some(rows), start, end).value;
            && (start <= rows[i][0] ==>
                b.0 == rows[i][2]) && (start > rows[i][0] ==> b.0 - rows[i][4] == start - rows[i][0])
            && (end >= rows[j][1] ==> b.1 == rows[j][3]) && (end < rows[j][1] ==> b.1 - rows[j][4] == end - rows[j][0])
  {
    hide MeetingRows;
    MeetingEnds(rows, start, end, i, j);
  }
}
