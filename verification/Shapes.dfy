/** What the drafts of a block must be, kind by kind, and when a block can be built at all. Nothing here
    computes: the groups of a block are determined by its text, and so are its drafts. */
module Shapes {
  import opened Sequences
  import opened Unicode
  import opened Splitting
  import opened Lines
  import opened Tables
  import opened Drafts
  import opened Spans

  /** A range of a block's text and what is shown for it. */
  datatype Part = Part(range: Range, display: string)

  ghost predicate DraftsOf(c: Config, block: Block, drafts: seq<Draft>) {
    AllDraftsOk(c, drafts) && forall k :: 0 <= k < |drafts| ==> drafts[k].blocks == [block]
  }

  /** One draft per part, in order, each with the span of its range. */
  ghost predicate Shown(block: Block, kind: ContentType, text: string, parts: seq<Part>, mergeable: bool,
                        drafts: seq<Draft>) {
    && |drafts| == |parts|
    && forall k :: 0 <= k < |drafts| ==>
         && drafts[k] == Draft([block], parts[k].display, kind, drafts[k].span, mergeable)
         && Located(block, text, parts[k].range, drafts[k].span)
  }

  /** Every part can be located and has something to show. */
  ghost predicate AllShowable(block: Block, text: string, parts: seq<Part>) {
    forall k :: 0 <= k < |parts| ==> Locatable(block, text, parts[k].range) && !Blank(parts[k].display)
  }

  predicate AllSolid(drafts: seq<Draft>) {
    forall k :: 0 <= k < |drafts| ==> !Blank(drafts[k].display)
  }

  lemma ShownDetermined(block: Block, kind: ContentType, text: string, parts: seq<Part>, mergeable: bool,
                        a: seq<Draft>, b: seq<Draft>)
    requires Shown(block, kind, text, parts, mergeable, a) && Shown(block, kind, text, parts, mergeable, b)
    ensures a == b
  {
    hide Located;
    forall k | 0 <= k < |a| ensures a[k] == b[k] {
      LocatedDetermined(block, text, parts[k].range, a[k].span, b[k].span);
    }
  }

  /** Drafts that were made are located, so only blank ones can be in the way. */
  lemma ShownIff(block: Block, kind: ContentType, text: string, parts: seq<Part>, mergeable: bool, drafts: seq<Draft>)
    requires Shown(block, kind, text, parts, mergeable, drafts)
    ensures AllShowable(block, text, parts) <==> AllSolid(drafts)
  {
    hide Located, Locatable, Blank;
    forall k | 0 <= k < |parts|
      ensures Locatable(block, text, parts[k].range) && drafts[k].display == parts[k].display
    {
      LocatedIsLocatable(block, text, parts[k].range, drafts[k].span);
    }
  }

  // --------------------------------------------------------------------- prose

  function ProseKind(kind: BlockType): ContentType {
    match kind
    case Paragraph => TextContent
    case ListBlock => ListContent
    case Blockquote => QuoteContent
    case Callout => CalloutContent
    case _ => UnknownContent
  }

  function OrBlank(text: Option<string>): string { if text.Some? then text.value else "" }

  /** The text that a prose block is split from. */
  function ProseText(block: Block): string {
    if block.projection.Some? || block.kind == Paragraph then OrBlank(block.plain) else block.raw
  }

  /** The pieces that are not blank. */
  function Solid(text: string, pieces: seq<Range>): (r: seq<Part>)
    requires forall k :: 0 <= k < |pieces| ==> pieces[k].0 <= pieces[k].1 <= |text|
    ensures forall k :: 0 <= k < |r| ==> && r[k].range in pieces && r[k].range.0 <= r[k].range.1 <= |text|
                                         && r[k].display == text[r[k].range.0..r[k].range.1] && !Blank(r[k].display)
  {
    if pieces == [] then []
    else
      var piece := text[pieces[0].0..pieces[0].1];
      (if Blank(piece) then [] else [Part(pieces[0], piece)]) + Solid(text, pieces[1..])
  }

  /** The pieces of a prose block that is not blank. */
  ghost predicate ProsePieces(c: Config, block: Block, pieces: seq<Range>) {
    var text := ProseText(block);
    var (maxChars, maxBytes) := BodyLimits(c, block, ProseKind(block.kind), block.kind == Paragraph);
    && Split(text, 0, |text|, maxChars, maxBytes, 0, pieces)
    && (forall k :: 0 <= k < |pieces| ==> pieces[k].0 <= pieces[k].1 <= |text|)
  }

  /** Prose: the non-blank pieces of the split; a block that stays whole may merge with its neighbours. */
  ghost predicate ProseShown(c: Config, block: Block, pieces: seq<Range>, drafts: seq<Draft>) {
    if Blank(ProseText(block)) then drafts == []
    else
      && ProsePieces(c, block, pieces)
      && Shown(block, ProseKind(block.kind), ProseText(block), Solid(ProseText(block), pieces),
               block.kind in {Paragraph, ListBlock, Blockquote} && |pieces| == 1, drafts)
  }

  /** Blank prose gives no draft; of other prose every piece that is not blank must be located. */
  ghost predicate ProseBuilds(c: Config, block: Block) {
    Blank(ProseText(block)) || exists pieces ::
      ProsePieces(c, block, pieces) && AllShowable(block, ProseText(block), Solid(ProseText(block), pieces))
  }

  lemma PiecesDetermined(c: Config, block: Block, a: seq<Range>, b: seq<Range>)
    requires ProsePieces(c, block, a) && ProsePieces(c, block, b)
    ensures a == b
  {
    hide Split, BodyLimits;
    var text := ProseText(block);
    var (maxChars, maxBytes) := BodyLimits(c, block, ProseKind(block.kind), block.kind == Paragraph);
    SplitDetermined(text, 0, |text|, maxChars, maxBytes, 0, a, b);
  }

  lemma ProseIff(c: Config, block: Block, pieces: seq<Range>, drafts: seq<Draft>)
    requires ProseShown(c, block, pieces, drafts)
    ensures ProseBuilds(c, block) <==> AllSolid(drafts)
  {
    hide Split, BodyLimits, Shown, AllShowable, Blank;
    if !Blank(ProseText(block)) {
      ShownIff(block, ProseKind(block.kind), ProseText(block), Solid(ProseText(block), pieces),
               block.kind in {Paragraph, ListBlock, Blockquote} && |pieces| == 1, drafts);
      if ProseBuilds(c, block) {
        var other :| ProsePieces(c, block, other) && AllShowable(block, ProseText(block),
            Solid(ProseText(block), other));
        PiecesDetermined(c, block, pieces, other);
      }
    }
  }

  // --------------------------------------------------------------------- lines

  function GroupParts(groups: seq<Group>): seq<Part> {
    seq(|groups|, k requires 0 <= k < |groups| => Part(groups[k].range, groups[k].display))
  }

  function Content(block: Block): string { StripNewlines(OrBlank(block.plain)) }

  /** Windows of lines that cover the content: whole lines, or longest slices of a line over budget. */
  ghost predicate LineWindows(c: Config, block: Block, kind: ContentType, window: nat, groups: seq<Group>) {
    var text := Content(block);
    var (maxChars, maxBytes) := BodyLimits(c, block, kind, false);
    && InText(text, LinesFrom(text, 0)) && GroupsOk(text, LinesFrom(text, 0), window, maxChars, maxBytes, groups)
    && Tiles(Ranges(groups), 0, |text|)
  }

  /** Code and diagrams: one draft per window. */
  ghost predicate LinesShown(c: Config, block: Block, kind: ContentType, window: nat, groups: seq<Group>,
                             drafts: seq<Draft>) {
    LineWindows(c, block, kind, window, groups) && Shown(block, kind, Content(block), GroupParts(groups), false, drafts)
  }

  /** No window of lines and no longest slice of an over-budget line is blank, and each can be located. */
  ghost predicate LinesBuild(c: Config, block: Block, kind: ContentType, window: nat) {
    exists groups :: && LineWindows(c, block, kind, window, groups)
                     && AllShowable(block, Content(block), GroupParts(groups))
  }

  lemma WindowsDetermined(c: Config, block: Block, kind: ContentType, window: nat, a: seq<Group>, b: seq<Group>)
    requires LineWindows(c, block, kind, window, a) && LineWindows(c, block, kind, window, b)
    ensures a == b
  {
    hide GroupsOk, BodyLimits, LinesFrom, StripNewlines, InText, Tiles;
    var (maxChars, maxBytes) := BodyLimits(c, block, kind, false);
    GroupsDetermined(Content(block), LinesFrom(Content(block), 0), window, maxChars, maxBytes, a, b);
  }

  lemma LinesIff(c: Config, block: Block, kind: ContentType, window: nat, groups: seq<Group>, drafts: seq<Draft>)
    requires LinesShown(c, block, kind, window, groups, drafts)
    ensures LinesBuild(c, block, kind, window) <==> AllSolid(drafts)
  {
    hide LineWindows, Shown, AllShowable, StripNewlines;
    ShownIff(block, kind, Content(block), GroupParts(groups), false, drafts);
    if LinesBuild(c, block, kind, window) {
      var other :| LineWindows(c, block, kind, window, other) && AllShowable(block, Content(block), GroupParts(other));
      WindowsDetermined(c, block, kind, window, groups, other);
    }
  }

  // -------------------------------------------------------------------- python

  /** Definitions found in Python content are in order, disjoint and within its lines. */
  predicate StructureOk(block: Block) {
    block.structure.Some? ==>
      var n := |LinesFrom(Content(block), 0)|;
      && (forall k :: 0 <= k < |block.structure.value| ==> block.structure.value[k].0 < block.structure.value[k].1 <= n)
      && (forall k :: 0 <= k < |block.structure.value| - 1 ==>
          block.structure.value[k].1 <= block.structure.value[k + 1].0)
  }

  /** The definitions and the gaps between them, from a line on. */
  function WithGaps(structure: seq<Range>, cursor: nat, n: nat): seq<Range> {
    if structure == [] then if cursor < n then [(cursor, n)] else []
    else
      (if cursor < structure[0].0 then [(cursor, structure[0].0)] else []) + [structure[0]]
      + WithGaps(structure[1..], structure[0].1, n)
  }

  /** The windows of one definition or gap: one if it fits, else as many lines as fit. */
  ghost predicate RangeWindows(c: Config, block: Block, lines: seq<Line>, range: Range, groups: seq<Group>) {
    var text := Content(block);
    var (maxChars, maxBytes) := BodyLimits(c, block, CodeContent, false);
    var start, end := At(lines, |text|, range.0), At(lines, |text|, range.1);
    && InText(text, lines) && c.codeWindowLines >= 1 && range.0 < range.1 <= |lines| && start <= end <= |text|
    && if WithinBudget(text[start..end], maxChars, maxBytes) && range.1 - range.0 <= c.codeWindowLines
       then groups == [Group(range.0, range.1, (start, end), StripNewlines(text[start..end]), true)]
       else && RangeGroupsOk(text, lines, range.1, c.codeWindowLines, maxChars, maxBytes, groups)
            && Tiles(Ranges(groups), start, end)
  }

  predicate BlankRange(block: Block, lines: seq<Line>, range: Range) {
    var text := Content(block);
    var start, end := At(lines, |text|, range.0), At(lines, |text|, range.1);
    start <= end <= |text| && Blank(text[start..end])
  }

  ghost predicate RangeShown(c: Config, block: Block, lines: seq<Line>, range: Range, groups: seq<Group>,
                             drafts: seq<Draft>) {
    if BlankRange(block, lines, range) then drafts == []
    else
      && RangeWindows(c, block, lines, range, groups)
      && Shown(block, CodeContent, Content(block), GroupParts(groups), false, drafts)
  }

  ghost predicate RangeBuilds(c: Config, block: Block, lines: seq<Line>, range: Range) {
    BlankRange(block, lines, range) || exists groups ::
      RangeWindows(c, block, lines, range, groups) && AllShowable(block, Content(block), GroupParts(groups))
  }

  lemma RangeWindowsDetermined(c: Config, block: Block, lines: seq<Line>, range: Range, a: seq<Group>, b: seq<Group>)
    requires RangeWindows(c, block, lines, range, a) && RangeWindows(c, block, lines, range, b)
    ensures a == b
  {
    hide RangeGroupsOk, BodyLimits, StripNewlines, InText, Tiles, WithinBudget, At;
    var text := Content(block);
    var (maxChars, maxBytes) := BodyLimits(c, block, CodeContent, false);
    var start, end := At(lines, |text|, range.0), At(lines, |text|, range.1);
    if !(WithinBudget(text[start..end], maxChars, maxBytes) && range.1 - range.0 <= c.codeWindowLines) {
      RangeGroupsDetermined(text, lines, range.1, c.codeWindowLines, maxChars, maxBytes, start, end, a, b);
    }
  }

  lemma RangeIff(c: Config, block: Block, lines: seq<Line>, range: Range, groups: seq<Group>, drafts: seq<Draft>)
    requires RangeShown(c, block, lines, range, groups, drafts)
    ensures RangeBuilds(c, block, lines, range) <==> AllSolid(drafts)
  {
    hide RangeWindows, Shown, AllShowable, StripNewlines, BlankRange;
    if !BlankRange(block, lines, range) {
      ShownIff(block, CodeContent, Content(block), GroupParts(groups), false, drafts);
      if RangeBuilds(c, block, lines, range) {
        var other :| RangeWindows(c, block, lines, range, other)
            && AllShowable(block, Content(block), GroupParts(other));
        RangeWindowsDetermined(c, block, lines, range, groups, other);
      }
    }
  }

  function Flatten<T>(parts: seq<seq<T>>): seq<T> {
    if parts == [] then [] else Flatten(parts[..|parts| - 1]) + parts[|parts| - 1]
  }

  lemma FlattenSnoc<T>(parts: seq<seq<T>>, last: seq<T>)
    ensures Flatten(parts + [last]) == Flatten(parts) + last
  {
    assert (parts + [last])[..|parts|] == parts;
  }

  lemma {:induction false} FlattenMember<T>(parts: seq<seq<T>>, x: T)
    ensures x in Flatten(parts) <==> exists k :: 0 <= k < |parts| && x in parts[k]
  {
    if parts != [] {
      var front, last := parts[..|parts| - 1], parts[|parts| - 1];
      FlattenMember(front, x);
      forall k | 0 <= k < |front| ensures front[k] == parts[k] {
      }
    }
  }

  ghost predicate SomehowShown(c: Config, block: Block, lines: seq<Line>, range: Range, drafts: seq<Draft>) {
    exists groups :: RangeShown(c, block, lines, range, groups, drafts)
  }

  ghost predicate AllRangesShown(c: Config, block: Block, lines: seq<Line>, ranges: seq<Range>,
                                 parts: seq<seq<Draft>>) {
    |parts| <= |ranges| && forall k :: 0 <= k < |parts| ==> SomehowShown(c, block, lines, ranges[k], parts[k])
  }

  /** The structural ranges of Python content. */
  function PythonRanges(block: Block): seq<Range>
    requires block.structure.Some?
  {
    WithGaps(block.structure.value, 0, |LinesFrom(Content(block), 0)|)
  }

  /** Python: its definitions and the gaps between them, one after the other. */
  ghost predicate PythonShown(c: Config, block: Block, drafts: seq<Draft>)
    requires block.structure.Some? && c.codeWindowLines >= 0
  {
    if Content(block) == "" then drafts == []
    else if block.structure.value == [] then
      exists groups :: LinesShown(c, block, CodeContent, c.codeWindowLines, groups, drafts)
    else exists parts :: && |parts| == |PythonRanges(block)| && drafts == Flatten(parts)
                         && AllRangesShown(c, block, LinesFrom(Content(block), 0), PythonRanges(block), parts)
  }

  ghost predicate PythonBuilds(c: Config, block: Block)
    requires block.structure.Some? && c.codeWindowLines >= 0
  {
    if Content(block) == "" then true
    else if block.structure.value == [] then LinesBuild(c, block, CodeContent, c.codeWindowLines)
    else forall r :: r in PythonRanges(block) ==> RangeBuilds(c, block, LinesFrom(Content(block), 0), r)
  }

  lemma AllSolidMember(drafts: seq<Draft>)
    ensures AllSolid(drafts) <==> forall d :: d in drafts ==> !Blank(d.display)
  {
    hide Blank;
  }

  lemma PythonIff(c: Config, block: Block, drafts: seq<Draft>)
    requires block.structure.Some? && c.codeWindowLines >= 0 && PythonShown(c, block, drafts)
    ensures PythonBuilds(c, block) <==> AllSolid(drafts)
  {
    hide LinesShown, RangeShown, RangeBuilds, LinesBuild, StripNewlines, LinesFrom, WithGaps, Blank;
    var lines := LinesFrom(Content(block), 0);
    if Content(block) == "" {
    } else if block.structure.value == [] {
      var groups :| LinesShown(c, block, CodeContent, c.codeWindowLines, groups, drafts);
      LinesIff(c, block, CodeContent, c.codeWindowLines, groups, drafts);
    } else {
      var ranges := PythonRanges(block);
      var parts :| |parts| == |ranges| && drafts == Flatten(parts) && AllRangesShown(c, block, lines, ranges, parts);
      forall k | 0 <= k < |ranges| ensures RangeBuilds(c, block, lines, ranges[k]) <==> AllSolid(parts[k]) {
        assert SomehowShown(c, block, lines, ranges[k], parts[k]);
        var groups :| RangeShown(c, block, lines, ranges[k], groups, parts[k]);
        RangeIff(c, block, lines, ranges[k], groups, parts[k]);
      }
      FlattenSolid(parts);
      assert PythonBuilds(c, block) <==> forall k :: 0 <= k < |ranges| ==> RangeBuilds(c, block, lines, ranges[k]);
    }
  }

  lemma FlattenSolid(parts: seq<seq<Draft>>)
    ensures AllSolid(Flatten(parts)) <==> forall k :: 0 <= k < |parts| ==> AllSolid(parts[k])
  {
    hide Blank, AllSolid, Flatten;
    AllSolidMember(Flatten(parts));
    forall d ensures d in Flatten(parts) <==> exists k :: 0 <= k < |parts| && d in parts[k] {
      FlattenMember(parts, d);
    }
    forall k | 0 <= k < |parts| ensures AllSolid(parts[k]) <==> forall d :: d in parts[k] ==> !Blank(d.display) {
      AllSolidMember(parts[k]);
    }
  }

  // -------------------------------------------------------------------- tables

  function LineTexts(text: string, lines: seq<Line>): seq<string>
    requires InText(text, lines)
  {
    seq(|lines|, k requires 0 <= k < |lines| => LineText(text, lines[k]))
  }

  /** The lines a table draft covers: the first unmarked one has the header too. */
  function RowPart(lines: seq<Line>, size: nat, g: RowGroup): Part {
    Part((At(lines, size, if !g.marker && g.first == 0 then 0 else 2 + g.first), At(lines, size, 2 + g.last)),
        g.display)
  }

  function RowParts(lines: seq<Line>, size: nat, groups: seq<RowGroup>): seq<Part> {
    seq(|groups|, k requires 0 <= k < |groups| => RowPart(lines, size, groups[k]))
  }

  /** Windows of rows under the header. */
  ghost predicate RowWindows(c: Config, block: Block, fingerprint: string -> string, groups: seq<RowGroup>) {
    var raw, lines := block.raw, LinesFrom(block.raw, 0);
    var (maxChars, maxBytes) := BodyLimits(c, block, TableContent, false);
    && InText(raw, lines) && c.tableRowsPerChunk >= 1 && |lines| > 2
    && var texts := LineTexts(raw, lines);
    && Tiles(Owned(groups), 0, |texts| - 2)
    && RowGroupsOk(texts[..2], texts[2..], fingerprint, c.tableRowsPerChunk, maxChars, maxBytes, groups)
  }

  predicate FitsWhole(c: Config, block: Block) {
    var (maxChars, maxBytes) := BodyLimits(c, block, TableContent, false);
    WithinBudget(block.raw, maxChars, maxBytes)
  }

  /** Tables: a header alone is shown whole or as a marker; otherwise windows of rows. */
  ghost predicate TableShown(c: Config, block: Block, fingerprint: string -> string, groups: seq<RowGroup>,
                             drafts: seq<Draft>) {
    var raw := block.raw;
    var (maxChars, maxBytes) := BodyLimits(c, block, TableContent, false);
    if |LinesFrom(raw, 0)| <= 2 then
      && |drafts| == 1 && drafts[0] == Draft([block], drafts[0].display, TableContent, block.span, false)
      && if FitsWhole(c, block) then drafts[0].display == raw
         else IsMarker("table", raw, fingerprint(raw), maxChars, maxBytes, drafts[0].display)
    else
      && RowWindows(c, block, fingerprint, groups)
      && Shown(block, TableContent, raw, RowParts(LinesFrom(raw, 0), |raw|, groups), false, drafts)
  }

  /** A header alone must not be blank, unless it is too long and replaced by a marker; otherwise no window
      of rows may be blank with its header, and each must be located. */
  ghost predicate TableBuilds(c: Config, block: Block, fingerprint: string -> string) {
    var raw := block.raw;
    if |LinesFrom(raw, 0)| <= 2 then !(Blank(raw) && FitsWhole(c, block))
    else exists groups :: RowWindows(c, block, fingerprint, groups)
                          && AllShowable(block, raw, RowParts(LinesFrom(raw, 0), |raw|, groups))
  }

  lemma RowWindowsDetermined(c: Config, block: Block, fingerprint: string -> string, a: seq<RowGroup>, b: seq<RowGroup>)
    requires RowWindows(c, block, fingerprint, a) && RowWindows(c, block, fingerprint, b)
    ensures a == b
  {
    hide RowGroupsOk, BodyLimits, LinesFrom, InText, Tiles;
    var texts := LineTexts(block.raw, LinesFrom(block.raw, 0));
    var (maxChars, maxBytes) := BodyLimits(c, block, TableContent, false);
    RowGroupsDetermined(texts[..2], texts[2..], fingerprint, c.tableRowsPerChunk, maxChars, maxBytes, a, b);
  }

  lemma MarkerIsSolid(kind: string, source: string, digest: string, maxChars: nat, maxBytes: nat, marker: string)
    requires IsMarker(kind, source, digest, maxChars, maxBytes, marker)
    ensures !Blank(marker)
  {
    hide WithinBudget;
    var k :| 0 <= k < 4 && marker == Markers(kind, source, digest)[k];
    assert marker[0] == '[' || marker[0] == '~';
  }

  lemma TableIff(c: Config, block: Block, fingerprint: string -> string, groups: seq<RowGroup>, drafts: seq<Draft>)
    requires TableShown(c, block, fingerprint, groups, drafts)
    ensures TableBuilds(c, block, fingerprint) <==> AllSolid(drafts)
  {
    hide RowWindows, Shown, AllShowable, LinesFrom, BodyLimits, FitsWhole, IsMarker, Blank;
    var raw := block.raw;
    if |LinesFrom(raw, 0)| <= 2 {
      if !FitsWhole(c, block) {
        var (maxChars, maxBytes) := BodyLimits(c, block, TableContent, false);
        MarkerIsSolid("table", raw, fingerprint(raw), maxChars, maxBytes, drafts[0].display);
      }
    } else {
      var parts := RowParts(LinesFrom(raw, 0), |raw|, groups);
      ShownIff(block, TableContent, raw, parts, false, drafts);
      if TableBuilds(c, block, fingerprint) {
        var other :| RowWindows(c, block, fingerprint, other)
                     && AllShowable(block, raw, RowParts(LinesFrom(raw, 0), |raw|, other));
        RowWindowsDetermined(c, block, fingerprint, groups, other);
      }
    }
  }

  // -------------------------------------------------------------------- blocks

  function Lower(ch: char): char { if 'A' <= ch <= 'Z' then ch - 'A' + 'a' else ch }

  predicate IsPython(language: Option<string>) {
    language.Some? &&
    var lower := seq(|language.value|, k requires 0 <= k < |language.value| => Lower(language.value[k]));
    lower == "py" || lower == "python"
  }

  /** What the drafts of a block show. */
  ghost predicate BlockShown(c: Config, block: Block, fingerprint: string -> string, drafts: seq<Draft>)
    requires ConfigOk(c)
  {
    match block.kind
    case Code =>
      if IsPython(block.language) && block.structure.Some? then PythonShown(c, block, drafts)
      else exists groups :: LinesShown(c, block, CodeContent, c.codeWindowLines, groups, drafts)
    case Mermaid => exists groups :: LinesShown(c, block, MermaidContent, c.mermaidWindowLines, groups, drafts)
    case Table => exists groups :: TableShown(c, block, fingerprint, groups, drafts)
    case _ => exists pieces :: ProseShown(c, block, pieces, drafts)
  }

  /** When a block can be built, from the block alone. */
  ghost predicate BlockBuilds(c: Config, block: Block, fingerprint: string -> string)
    requires ConfigOk(c)
  {
    match block.kind
    case Code =>
      if IsPython(block.language) && block.structure.Some? then PythonBuilds(c, block)
      else LinesBuild(c, block, CodeContent, c.codeWindowLines)
    case Mermaid => LinesBuild(c, block, MermaidContent, c.mermaidWindowLines)
    case Table => TableBuilds(c, block, fingerprint)
    case _ => ProseBuilds(c, block)
  }

  /** A block whose drafts could be made can be built exactly when none of them is blank. */
  lemma BlockIff(c: Config, block: Block, fingerprint: string -> string, drafts: seq<Draft>)
    requires ConfigOk(c) && BlockShown(c, block, fingerprint, drafts)
    ensures BlockBuilds(c, block, fingerprint) <==> AllSolid(drafts)
  {
    hide LinesShown, TableShown, ProseShown, PythonShown, LinesBuild, TableBuilds, ProseBuilds, PythonBuilds, AllSolid;
    match block.kind
    case Code =>
      if IsPython(block.language) && block.structure.Some? {
        PythonIff(c, block, drafts);
      } else {
        var groups :| LinesShown(c, block, CodeContent, c.codeWindowLines, groups, drafts);
        LinesIff(c, block, CodeContent, c.codeWindowLines, groups, drafts);
      }
    case Mermaid =>
      var groups :| LinesShown(c, block, MermaidContent, c.mermaidWindowLines, groups, drafts);
      LinesIff(c, block, MermaidContent, c.mermaidWindowLines, groups, drafts);
    case Table =>
      var groups :| TableShown(c, block, fingerprint, groups, drafts);
      TableIff(c, block, fingerprint, groups, drafts);
    case _ =>
      var pieces :| ProseShown(c, block, pieces, drafts);
      ProseIff(c, block, pieces, drafts);
  }

  // -------------------------------------------------------- drafts are determined

  lemma LinesSame(c: Config, block: Block, kind: ContentType, window: nat, g: seq<Group>, h: seq<Group>,
                  a: seq<Draft>, b: seq<Draft>)
    requires LinesShown(c, block, kind, window, g, a) && LinesShown(c, block, kind, window, h, b)
    ensures a == b
  {
    hide LineWindows, Shown;
    WindowsDetermined(c, block, kind, window, g, h);
    ShownDetermined(block, kind, Content(block), GroupParts(g), false, a, b);
  }

  lemma RangeSame(c: Config, block: Block, lines: seq<Line>, range: Range, a: seq<Draft>, b: seq<Draft>)
    requires SomehowShown(c, block, lines, range, a) && SomehowShown(c, block, lines, range, b)
    ensures a == b
  {
    hide RangeWindows, Shown, BlankRange, StripNewlines;
    var g :| RangeShown(c, block, lines, range, g, a);
    var h :| RangeShown(c, block, lines, range, h, b);
    if !BlankRange(block, lines, range) {
      RangeWindowsDetermined(c, block, lines, range, g, h);
      ShownDetermined(block, CodeContent, Content(block), GroupParts(g), false, a, b);
    }
  }

  lemma PythonSame(c: Config, block: Block, a: seq<Draft>, b: seq<Draft>)
    requires block.structure.Some? && c.codeWindowLines >= 0 && PythonShown(c, block, a) && PythonShown(c, block, b)
    ensures a == b
  {
    hide LinesShown, SomehowShown, StripNewlines, LinesFrom, WithGaps;
    var lines := LinesFrom(Content(block), 0);
    if Content(block) == "" {
    } else if block.structure.value == [] {
      var g :| LinesShown(c, block, CodeContent, c.codeWindowLines, g, a);
      var h :| LinesShown(c, block, CodeContent, c.codeWindowLines, h, b);
      LinesSame(c, block, CodeContent, c.codeWindowLines, g, h, a, b);
    } else {
      var ranges := PythonRanges(block);
      var p :| |p| == |ranges| && a == Flatten(p) && AllRangesShown(c, block, lines, ranges, p);
      var q :| |q| == |ranges| && b == Flatten(q) && AllRangesShown(c, block, lines, ranges, q);
      forall k | 0 <= k < |p| ensures p[k] == q[k] {
        RangeSame(c, block, lines, ranges[k], p[k], q[k]);
      }
      assert p == q;
    }
  }

  lemma TableSame(c: Config, block: Block, fingerprint: string -> string, g: seq<RowGroup>, h: seq<RowGroup>,
                  a: seq<Draft>, b: seq<Draft>)
    requires TableShown(c, block, fingerprint, g, a) && TableShown(c, block, fingerprint, h, b)
    ensures a == b
  {
    hide RowWindows, Shown, LinesFrom, BodyLimits, FitsWhole, IsMarker;
    var raw := block.raw;
    var (maxChars, maxBytes) := BodyLimits(c, block, TableContent, false);
    if |LinesFrom(raw, 0)| > 2 {
      RowWindowsDetermined(c, block, fingerprint, g, h);
      ShownDetermined(block, TableContent, raw, RowParts(LinesFrom(raw, 0), |raw|, g), false, a, b);
    } else if !FitsWhole(c, block) {
      MarkerDetermined("table", raw, fingerprint(raw), maxChars, maxBytes, a[0].display, b[0].display);
    }
  }

  lemma ProseSame(c: Config, block: Block, p: seq<Range>, q: seq<Range>, a: seq<Draft>, b: seq<Draft>)
    requires ProseShown(c, block, p, a) && ProseShown(c, block, q, b)
    ensures a == b
  {
    hide Split, BodyLimits, Shown, Blank;
    var text := ProseText(block);
    if !Blank(text) {
      PiecesDetermined(c, block, p, q);
      ShownDetermined(block, ProseKind(block.kind), text, Solid(text, p),
                      block.kind in {Paragraph, ListBlock, Blockquote} && |p| == 1, a, b);
    }
  }

  /** The drafts of a block are determined by the block and the configuration. */
  lemma DraftsDetermined(c: Config, block: Block, fingerprint: string -> string, a: seq<Draft>, b: seq<Draft>)
    requires ConfigOk(c) && BlockShown(c, block, fingerprint, a) && BlockShown(c, block, fingerprint, b)
    ensures a == b
  {
    hide LinesShown, TableShown, ProseShown, PythonShown;
    match block.kind
    case Code =>
      if IsPython(block.language) && block.structure.Some? {
        PythonSame(c, block, a, b);
      } else {
        var g :| LinesShown(c, block, CodeContent, c.codeWindowLines, g, a);
        var h :| LinesShown(c, block, CodeContent, c.codeWindowLines, h, b);
        LinesSame(c, block, CodeContent, c.codeWindowLines, g, h, a, b);
      }
    case Mermaid =>
      var g :| LinesShown(c, block, MermaidContent, c.mermaidWindowLines, g, a);
      var h :| LinesShown(c, block, MermaidContent, c.mermaidWindowLines, h, b);
      LinesSame(c, block, MermaidContent, c.mermaidWindowLines, g, h, a, b);
    case Table =>
      var g :| TableShown(c, block, fingerprint, g, a);
      var h :| TableShown(c, block, fingerprint, h, b);
      TableSame(c, block, fingerprint, g, h, a, b);
    case _ =>
      var p :| ProseShown(c, block, p, a);
      var q :| ProseShown(c, block, q, b);
      ProseSame(c, block, p, q, a, b);
  }

  /** Only prose can merge, and prose drafts are never blank. */
  lemma MergeableIsSolid(c: Config, block: Block, fingerprint: string -> string, drafts: seq<Draft>, k: nat)
    requires ConfigOk(c) && BlockShown(c, block, fingerprint, drafts) && k < |drafts| && drafts[k].mergeable
    ensures !Blank(drafts[k].display)
  {
    hide LineWindows, RangeWindows, RowWindows, ProsePieces, Located, Blank, LinesFrom, StripNewlines, BodyLimits,
         FitsWhole,
         IsMarker, WithGaps, BlankRange;
    if block.kind == Code && IsPython(block.language) && block.structure.Some? {
      PythonStaysAlone(c, block, drafts, k);
    }
  }

  lemma PythonStaysAlone(c: Config, block: Block, drafts: seq<Draft>, k: nat)
    requires block.structure.Some? && c.codeWindowLines >= 0 && PythonShown(c, block, drafts) && k < |drafts|
    ensures !drafts[k].mergeable
  {
    hide LineWindows, RangeWindows, Located, Blank, LinesFrom, StripNewlines, BlankRange, WithGaps;
    if block.structure.value != [] && Content(block) != "" {
      var lines, ranges := LinesFrom(Content(block), 0), PythonRanges(block);
      var parts :| |parts| == |ranges| && drafts == Flatten(parts) && AllRangesShown(c, block, lines, ranges, parts);
      FlattenMember(parts, drafts[k]);
      var i :| 0 <= i < |parts| && drafts[k] in parts[i];
      assert SomehowShown(c, block, lines, ranges[i], parts[i]);
    }
  }
}
