/** The parts of a block: the ranges into which its text is cut, and what is shown for each. */
module Parts {
  import opened Sequences
  import opened Unicode
  import opened Splitting
  import opened Lines
  import opened Tables
  import opened Drafts
  import opened Spans
  import opened Shapes

  /** The text a block's drafts are cut from. */
  function DraftText(block: Block): string {
    match block.kind
    case Code => Content(block)
    case Mermaid => Content(block)
    case Table => block.raw
    case _ => ProseText(block)
  }

  function DraftLines(block: Block): seq<Line> { LinesFrom(DraftText(block), 0) }

  predicate ShortTable(block: Block) { block.kind == Table && |LinesFrom(block.raw, 0)| <= 2 }

  ghost predicate ProseParts(c: Config, block: Block, parts: seq<Part>) {
    if Blank(ProseText(block)) then parts == []
    else exists pieces :: ProsePieces(c, block, pieces) && parts == Solid(ProseText(block), pieces)
  }

  ghost predicate LineParts(c: Config, block: Block, kind: ContentType, window: nat, parts: seq<Part>) {
    exists groups :: LineWindows(c, block, kind, window, groups) && parts == GroupParts(groups)
  }

  ghost predicate RangeParts(c: Config, block: Block, lines: seq<Line>, range: Range, parts: seq<Part>) {
    if BlankRange(block, lines, range) then parts == []
    else exists groups :: RangeWindows(c, block, lines, range, groups) && parts == GroupParts(groups)
  }

  ghost predicate PythonParts(c: Config, block: Block, parts: seq<Part>)
    requires block.structure.Some? && c.codeWindowLines >= 0
  {
    if Content(block) == "" then parts == []
    else if block.structure.value == [] then LineParts(c, block, CodeContent, c.codeWindowLines, parts)
    else exists each :: && |each| == |PythonRanges(block)| && parts == Flatten(each)
                        && forall k :: 0 <= k < |each| ==>
                             RangeParts(c, block, LinesFrom(Content(block), 0), PythonRanges(block)[k], each[k])
  }

  ghost predicate TableParts(c: Config, block: Block, fingerprint: string -> string, parts: seq<Part>) {
    var raw := block.raw;
    var (maxChars, maxBytes) := BodyLimits(c, block, TableContent, false);
    if |LinesFrom(raw, 0)| <= 2 then
      && |parts| == 1 && parts[0].range == (0, |raw|)
      && if FitsWhole(c, block) then parts[0].display == raw
         else IsMarker("table", raw, fingerprint(raw), maxChars, maxBytes, parts[0].display)
    else exists groups :: && RowWindows(c, block, fingerprint, groups)
                          && parts == RowParts(LinesFrom(raw, 0), |raw|, groups)
  }

  /** The ranges into which a block's text is cut and what is shown for each. */
  ghost predicate BlockParts(c: Config, block: Block, fingerprint: string -> string, parts: seq<Part>)
    requires ConfigOk(c)
  {
    match block.kind
    case Code =>
      if IsPython(block.language) && block.structure.Some? then PythonParts(c, block, parts)
      else LineParts(c, block, CodeContent, c.codeWindowLines, parts)
    case Mermaid => LineParts(c, block, MermaidContent, c.mermaidWindowLines, parts)
    case Table => TableParts(c, block, fingerprint, parts)
    case _ => ProseParts(c, block, parts)
  }

  lemma RangePartsSame(c: Config, block: Block, lines: seq<Line>, range: Range, a: seq<Part>, b: seq<Part>)
    requires RangeParts(c, block, lines, range, a) && RangeParts(c, block, lines, range, b)
    ensures a == b
  {
    hide RangeWindows, BlankRange;
    if !BlankRange(block, lines, range) {
      var g :| RangeWindows(c, block, lines, range, g) && a == GroupParts(g);
      var h :| RangeWindows(c, block, lines, range, h) && b == GroupParts(h);
      RangeWindowsDetermined(c, block, lines, range, g, h);
    }
  }

  lemma LinePartsSame(c: Config, block: Block, kind: ContentType, window: nat, a: seq<Part>, b: seq<Part>)
    requires LineParts(c, block, kind, window, a) && LineParts(c, block, kind, window, b)
    ensures a == b
  {
    hide LineWindows;
    var g :| LineWindows(c, block, kind, window, g) && a == GroupParts(g);
    var h :| LineWindows(c, block, kind, window, h) && b == GroupParts(h);
    WindowsDetermined(c, block, kind, window, g, h);
  }

  lemma PythonPartsSame(c: Config, block: Block, a: seq<Part>, b: seq<Part>)
    requires block.structure.Some? && c.codeWindowLines >= 0 && PythonParts(c, block, a) && PythonParts(c, block, b)
    ensures a == b
  {
    hide LineParts, RangeParts, StripNewlines, LinesFrom, WithGaps;
    var lines, ranges := LinesFrom(Content(block), 0), PythonRanges(block);
    if Content(block) == "" {
    } else if block.structure.value == [] {
      LinePartsSame(c, block, CodeContent, c.codeWindowLines, a, b);
    } else {
      var x :| && |x| == |ranges| && a == Flatten(x)
               && forall k :: 0 <= k < |x| ==> RangeParts(c, block, lines, ranges[k], x[k]);
      var y :| && |y| == |ranges| && b == Flatten(y)
               && forall k :: 0 <= k < |y| ==> RangeParts(c, block, lines, ranges[k], y[k]);
      forall k | 0 <= k < |x| ensures x[k] == y[k] {
        RangePartsSame(c, block, lines, ranges[k], x[k], y[k]);
      }
      assert x == y;
    }
  }

  lemma TablePartsSame(c: Config, block: Block, fingerprint: string -> string, a: seq<Part>, b: seq<Part>)
    requires TableParts(c, block, fingerprint, a) && TableParts(c, block, fingerprint, b)
    ensures a == b
  {
    hide RowWindows, LinesFrom, BodyLimits, FitsWhole, IsMarker;
    var raw := block.raw;
    var (maxChars, maxBytes) := BodyLimits(c, block, TableContent, false);
    if |LinesFrom(raw, 0)| > 2 {
      var g :| RowWindows(c, block, fingerprint, g) && a == RowParts(LinesFrom(raw, 0), |raw|, g);
      var h :| RowWindows(c, block, fingerprint, h) && b == RowParts(LinesFrom(raw, 0), |raw|, h);
      RowWindowsDetermined(c, block, fingerprint, g, h);
    } else if !FitsWhole(c, block) {
      MarkerDetermined("table", raw, fingerprint(raw), maxChars, maxBytes, a[0].display, b[0].display);
    }
  }

  /** The parts of a block are determined by the block and the configuration. */
  lemma PartsDetermined(c: Config, block: Block, fingerprint: string -> string, a: seq<Part>, b: seq<Part>)
    requires ConfigOk(c) && BlockParts(c, block, fingerprint, a) && BlockParts(c, block, fingerprint, b)
    ensures a == b
  {
    hide LineParts, TableParts, PythonParts, Split, BodyLimits, Blank;
    match block.kind
    case Code =>
      if IsPython(block.language) && block.structure.Some? {
        PythonPartsSame(c, block, a, b);
      } else {
        LinePartsSame(c, block, CodeContent, c.codeWindowLines, a, b);
      }
    case Mermaid => LinePartsSame(c, block, MermaidContent, c.mermaidWindowLines, a, b);
    case Table => TablePartsSame(c, block, fingerprint, a, b);
    case _ =>
      var text := ProseText(block);
      if !Blank(text) {
        var p :| ProsePieces(c, block, p) && a == Solid(text, p);
        var q :| ProsePieces(c, block, q) && b == Solid(text, q);
        PiecesDetermined(c, block, p, q);
      }
  }

  /** The draft shows what its part says and has the span of its range; a short table has its block's. */
  ghost predicate Drawn(block: Block, part: Part, d: Draft) {
    && d.blocks == [block] && d.display == part.display
    && if ShortTable(block) then d.span == block.span else Located(block, DraftText(block), part.range, d.span)
  }

  ghost predicate AllDrawn(block: Block, parts: seq<Part>, drafts: seq<Draft>) {
    |parts| == |drafts| && forall k :: 0 <= k < |parts| ==> Drawn(block, parts[k], drafts[k])
  }

  lemma ShownDrawn(block: Block, kind: ContentType, parts: seq<Part>, mergeable: bool, drafts: seq<Draft>)
    requires Shown(block, kind, DraftText(block), parts, mergeable, drafts) && !ShortTable(block)
    ensures AllDrawn(block, parts, drafts)
  {
    hide Located;
  }

  lemma PythonDrawn(c: Config, block: Block, drafts: seq<Draft>) returns (parts: seq<Part>)
    requires block.structure.Some? && c.codeWindowLines >= 0 && PythonShown(c, block, drafts) && block.kind == Code
    ensures PythonParts(c, block, parts) && AllDrawn(block, parts, drafts)
  {
    hide LineWindows, RangeWindows, Shown, StripNewlines, LinesFrom, WithGaps, BlankRange, Drawn;
    var lines, ranges := LinesFrom(Content(block), 0), PythonRanges(block);
    if Content(block) == "" {
      parts := [];
    } else if block.structure.value == [] {
      var groups :| LinesShown(c, block, CodeContent, c.codeWindowLines, groups, drafts);
      parts := GroupParts(groups);
      ShownDrawn(block, CodeContent, parts, false, drafts);
    } else {
      var all :| |all| == |ranges| && drafts == Flatten(all) && AllRangesShown(c, block, lines, ranges, all);
      var each := RangesDrawn(c, block, lines, ranges, all);
      parts := Flatten(each);
    }
  }

  lemma {:induction false} RangesDrawn(c: Config, block: Block, lines: seq<Line>, ranges: seq<Range>,
                                       all: seq<seq<Draft>>)
    returns (each: seq<seq<Part>>)
    requires AllRangesShown(c, block, lines, ranges, all) && block.kind == Code
    ensures |each| == |all| && AllDrawn(block, Flatten(each), Flatten(all))
    ensures forall k :: 0 <= k < |each| ==> RangeParts(c, block, lines, ranges[k], each[k])
    decreases |all|
  {
    hide RangeWindows, Shown, StripNewlines, BlankRange, Drawn;
    if all == [] {
      each := [];
    } else {
      var n := |all| - 1;
      var front := RangesDrawn(c, block, lines, ranges, all[..n]);
      assert SomehowShown(c, block, lines, ranges[n], all[n]);
      var groups :| RangeShown(c, block, lines, ranges[n], groups, all[n]);
      var last := if BlankRange(block, lines, ranges[n]) then [] else GroupParts(groups);
      if !BlankRange(block, lines, ranges[n]) {
        ShownDrawn(block, CodeContent, last, false, all[n]);
      }
      each := front + [last];
      FlattenSnoc(front, last);
    }
  }

  /** The drafts of a block are drawn from its parts. */
  lemma DraftsHaveParts(c: Config, block: Block, fingerprint: string -> string, drafts: seq<Draft>)
    returns (parts: seq<Part>)
    requires ConfigOk(c) && BlockShown(c, block, fingerprint, drafts)
    ensures BlockParts(c, block, fingerprint, parts) && AllDrawn(block, parts, drafts)
  {
    hide LineWindows, RowWindows, ProsePieces, Shown, PythonShown, PythonParts, LinesFrom, StripNewlines, Blank, Drawn,
         FitsWhole, IsMarker, BodyLimits;
    match block.kind
    case Code =>
      if IsPython(block.language) && block.structure.Some? {
        parts := PythonDrawn(c, block, drafts);
      } else {
        var groups :| LinesShown(c, block, CodeContent, c.codeWindowLines, groups, drafts);
        parts := GroupParts(groups);
        ShownDrawn(block, CodeContent, parts, false, drafts);
      }
    case Mermaid =>
      var groups :| LinesShown(c, block, MermaidContent, c.mermaidWindowLines, groups, drafts);
      parts := GroupParts(groups);
      ShownDrawn(block, MermaidContent, parts, false, drafts);
    case Table =>
      parts := TableDrawn(c, block, fingerprint, drafts);
    case _ =>
      parts := ProseDrawn(c, block, drafts);
  }

  lemma TableDrawn(c: Config, block: Block, fingerprint: string -> string,
                   drafts: seq<Draft>) returns (parts: seq<Part>)
    requires block.kind == Table && exists groups :: TableShown(c, block, fingerprint, groups, drafts)
    ensures TableParts(c, block, fingerprint, parts) && AllDrawn(block, parts, drafts)
  {
    hide RowWindows, Shown, LinesFrom, FitsWhole, IsMarker, BodyLimits;
    var groups :| TableShown(c, block, fingerprint, groups, drafts);
    if ShortTable(block) {
      parts := [Part((0, |block.raw|), drafts[0].display)];
    } else {
      parts := RowParts(LinesFrom(block.raw, 0), |block.raw|, groups);
      ShownDrawn(block, TableContent, parts, false, drafts);
    }
  }

  lemma ProseDrawn(c: Config, block: Block, drafts: seq<Draft>) returns (parts: seq<Part>)
    requires DraftText(block) == ProseText(block) && block.kind != Table
    requires exists pieces :: ProseShown(c, block, pieces, drafts)
    ensures ProseParts(c, block, parts) && AllDrawn(block, parts, drafts)
  {
    hide Split, BodyLimits, Shown, Blank, Drawn;
    var pieces :| ProseShown(c, block, pieces, drafts);
    if Blank(ProseText(block)) {
      parts := [];
    } else {
      parts := Solid(ProseText(block), pieces);
      ShownDrawn(block, ProseKind(block.kind), parts,
                 block.kind in {Paragraph, ListBlock, Blockquote} && |pieces| == 1, drafts);
    }
  }
}
