/** The structural chunker: drafts of every block kind, merged and checked. */
module Chunker {
  import opened Sequences
  import opened Unicode
  import opened Splitting
  import opened Lines
  import opened Tables
  import opened Drafts
  import opened Embedding
  import opened Spans
  import opened Shapes

  // ---------------------------------------------------------- block drafts

  ghost predicate PartsFit(c: Config, block: Block, kind: ContentType, text: string, parts: seq<Part>) {
    var (maxChars, maxBytes) := BodyLimits(c, block, kind, false);
    forall k :: 0 <= k < |parts| ==>
      && parts[k].range.0 <= parts[k].range.1 <= |text| && WithinBudget(parts[k].display, maxChars, maxBytes)
  }

  /** One draft per part; refused exactly when some part cannot be located. */
  method PartDrafts(c: Config, block: Block, kind: ContentType, text: string, parts: seq<Part>, mergeable: bool)
    returns (r: Result<seq<Draft>>)
    requires ConfigOk(c) && PartsFit(c, block, kind, text, parts)
    ensures r.Ok? ==> DraftsOf(c, block, r.value) && Shown(block, kind, text, parts, mergeable, r.value)
    ensures r.Err? ==> !AllShowable(block, text, parts)
  {
    hide BodyLimits, WithinBudget, Located, Locatable, Blank;
    var drafts: seq<Draft> := [];
    for k := 0 to |parts|
      invariant DraftsOf(c, block, drafts) && Shown(block, kind, text, parts[..k], mergeable, drafts)
    {
      var part := parts[k];
      var span := SpanForSlice(block, text, part.range.0, part.range.1);
      assert part.range == (part.range.0, part.range.1);
      if span.Err? {
        return Err(span.error);
      }
      drafts := drafts + [Draft([block], part.display, kind, span.value, mergeable)];
    }
    assert parts[..|parts|] == parts;
    return Ok(drafts);
  }

  /** The prose path of `_block_drafts`. */
  method ProseDrafts(c: Config, block: Block) returns (r: Result<seq<Draft>>, ghost pieces: seq<Range>)
    requires ConfigOk(c)
    ensures r.Ok? ==> DraftsOf(c, block, r.value) && ProseShown(c, block, pieces, r.value)
    ensures r.Err? ==> !ProseBuilds(c, block)
  {
    hide EmbeddingPrefix, Bytes, TooWide, Tiles, Blank, Split, WithinBudget, BodyLimits, AllShowable;
    var kind, text := ProseKind(block.kind), ProseText(block);
    var (maxChars, maxBytes) := BodyLimits(c, block, kind, block.kind == Paragraph);
    LimitsLeaveRoom(c, block, kind, block.kind == Paragraph);
    if Blank(text) {
      return Ok([]), [];
    }
    var split := SplitRange(text, 0, |text|, maxChars, maxBytes, 0);
    FourBytesSuffice(text, 0, |text|, maxBytes);
    var mergeable := block.kind in {Paragraph, ListBlock, Blockquote} && |split.value| == 1;
    SolidFits(c, block, kind, block.kind == Paragraph, text, split.value);
    pieces := split.value;
    assert ProsePieces(c, block, pieces);
    r := PartDrafts(c, block, kind, text, Solid(text, split.value), mergeable);
    if r.Err? {
      ProseRefused(c, block, pieces);
    }
  }

  lemma ProseRefused(c: Config, block: Block, pieces: seq<Range>)
    requires !Blank(ProseText(block)) && ProsePieces(c, block, pieces)
    requires !AllShowable(block, ProseText(block), Solid(ProseText(block), pieces))
    ensures !ProseBuilds(c, block)
  {
    hide Split, BodyLimits, AllShowable, Blank;
    if ProseBuilds(c, block) {
      var other :| ProsePieces(c, block, other) && AllShowable(block, ProseText(block), Solid(ProseText(block), other));
      PiecesDetermined(c, block, pieces, other);
    }
  }

  lemma SolidFits(c: Config, block: Block, kind: ContentType, useTarget: bool, text: string, pieces: seq<Range>)
    requires ConfigOk(c)
    requires AllWithin(text, pieces, BodyLimits(c, block, kind, useTarget).0, BodyLimits(c, block, kind, useTarget).1)
    ensures PartsFit(c, block, kind, text, Solid(text, pieces))
  {
    hide WithinBudget, BodyLimits;
    var parts := Solid(text, pieces);
    forall k | 0 <= k < |parts|
      ensures WithinBudget(parts[k].display, BodyLimits(c, block, kind, false).0, BodyLimits(c, block, kind, false).1)
    {
      if useTarget {
        TargetImpliesHard(c, block, kind, parts[k].display);
      }
    }
  }

  /** `_line_drafts` */
  method LineDrafts(c: Config, block: Block, kind: ContentType, window: nat)
    returns (r: Result<seq<Draft>>, ghost groups: seq<Group>)
    requires ConfigOk(c) && 1 <= window
    ensures r.Ok? ==> DraftsOf(c, block, r.value) && LinesShown(c, block, kind, window, groups, r.value)
    ensures r.Err? ==> !LinesBuild(c, block, kind, window)
  {
    hide DraftOk, BodyLimits, WithinBudget, TooWide, LinesFrom, StripNewlines, Shown, LinesOf, Tiles, GroupsOk,
         PartsFit, AllShowable;
    var content := Content(block);
    var lines := LinesFrom(content, 0);
    LinesInText(content);
    var (maxChars, maxBytes) := BodyLimits(c, block, kind, false);
    LimitsLeaveRoom(c, block, kind, false);
    FourBytesSuffice(content, 0, |content|, maxBytes);
    var grouped := LineGroups(content, lines, window, maxChars, maxBytes);
    groups := grouped.value;
    TilesOrdered(Ranges(groups), 0, |content|);
    UnitsNonEmpty(Ranges(groups), 0, |content|);
    GroupRanges(groups, |content|);
    GroupsFit(c, block, kind, content, lines, window, groups);
    assert LineWindows(c, block, kind, window, groups);
    r := PartDrafts(c, block, kind, content, GroupParts(grouped.value), false);
    if r.Err? {
      LinesRefused(c, block, kind, window, groups);
    }
  }

  lemma LinesRefused(c: Config, block: Block, kind: ContentType, window: nat, groups: seq<Group>)
    requires LineWindows(c, block, kind, window, groups) && !AllShowable(block, Content(block), GroupParts(groups))
    ensures !LinesBuild(c, block, kind, window)
  {
    hide LineWindows, AllShowable;
    if LinesBuild(c, block, kind, window) {
      var other :| LineWindows(c, block, kind, window, other) && AllShowable(block, Content(block), GroupParts(other));
      WindowsDetermined(c, block, kind, window, groups, other);
    }
  }

  lemma GroupsFit(c: Config, block: Block, kind: ContentType, text: string, lines: seq<Line>, window: nat,
                  groups: seq<Group>)
    requires InText(text, lines)
    requires GroupsOk(text, lines, window, BodyLimits(c, block, kind, false).0, BodyLimits(c, block, kind, false).1,
             groups)
    requires forall k :: 0 <= k < |groups| ==> groups[k].range.0 <= groups[k].range.1 <= |text|
    ensures PartsFit(c, block, kind, text, GroupParts(groups))
  {
    hide BodyLimits, WithinBudget, LinesOf, JoinLines;
    var (maxChars, maxBytes) := BodyLimits(c, block, kind, false);
    forall k | 0 <= k < |groups| ensures WithinBudget(groups[k].display, maxChars, maxBytes) {
      assert GroupOk(text, lines, window, maxChars, maxBytes, groups[k]);
    }
  }

  lemma GroupRanges(groups: seq<Group>, hi: nat)
    requires forall k :: 0 <= k < |groups| ==> Ranges(groups)[k].0 < Ranges(groups)[k].1 <= hi
    ensures forall k :: 0 <= k < |groups| ==> groups[k].range.0 <= groups[k].range.1 <= hi
  {
    forall k | 0 <= k < |groups| ensures groups[k].range.0 <= groups[k].range.1 <= hi {
      assert Ranges(groups)[k] == groups[k].range;
    }
  }

  /** The definitions and the whole gaps between them, covering all lines. */
  ghost predicate Interleaved(structure: seq<Range>, n: nat, ranges: seq<Range>) {
    && Tiles(ranges, 0, n) && (forall k :: 0 <= k < |structure| ==> structure[k] in ranges)
    && forall r :: r in ranges ==> r in structure || Gap(structure, n, r)
  }

  ghost predicate Gap(structure: seq<Range>, n: nat, r: Range) {
    && (r.0 == 0 || exists k :: 0 <= k < |structure| && r.0 == structure[k].1)
    && (r.1 == n || exists k :: 0 <= k < |structure| && r.1 == structure[k].0)
  }

  /** The range loop of `_python_drafts`. */
  method StructuralRanges(structure: seq<Range>, n: nat) returns (ranges: seq<Range>)
    requires forall k :: 0 <= k < |structure| ==> structure[k].0 < structure[k].1 <= n
    requires forall k :: 0 <= k < |structure| - 1 ==> structure[k].1 <= structure[k + 1].0
    ensures Interleaved(structure, n, ranges) && ranges == WithGaps(structure, 0, n)
  {
    hide Tiles, WithGaps;
    ranges := [];
    var cursor: nat := 0;
    NoTiles(0);
    assert structure[0..] == structure;
    assert ranges + WithGaps(structure, 0, n) == WithGaps(structure, 0, n);
    for k := 0 to |structure|
      invariant cursor == (if k == 0 then 0 else structure[k - 1].1) && Tiles(ranges, 0, cursor)
      invariant forall j :: 0 <= j < k ==> structure[j] in ranges
      invariant forall r :: r in ranges ==> r in structure || Gap(structure, n, r)
      invariant ranges + WithGaps(structure[k..], cursor, n) == WithGaps(structure, 0, n)
    {
      assert structure[k..][1..] == structure[k + 1..];
      OneGap(ranges, structure[k..], cursor, n);
      assert structure[k] == (structure[k].0, structure[k].1);
      ranges := ExtendTo(ranges, cursor, structure[k].0);
      ranges := ExtendTo(ranges, structure[k].0, structure[k].1);
      cursor := structure[k].1;
    }
    assert structure[|structure|..] == [];
    OneGap(ranges, [], cursor, n);
    ranges := ExtendTo(ranges, cursor, n);
  }

  lemma OneGap(ranges: seq<Range>, structure: seq<Range>, cursor: nat, n: nat)
    ensures structure != [] ==>
              ranges + WithGaps(structure, cursor, n) ==
              (if cursor < structure[0].0 then ranges + [(cursor, structure[0].0)] else ranges) + [structure[0]]
              + WithGaps(structure[1..], structure[0].1, n)
    ensures structure == [] ==>
              ranges + WithGaps(structure, cursor, n) == if cursor < n then ranges + [(cursor, n)] else ranges
  {
    if structure != [] {
      var gap := if cursor < structure[0].0 then [(cursor, structure[0].0)] else [];
      Reassociate(ranges, gap, [structure[0]], WithGaps(structure[1..], structure[0].1, n));
      assert gap == [] ==> ranges + gap == ranges;
    } else if cursor >= n {
      assert ranges + [] == ranges;
    }
  }

  lemma Reassociate(a: seq<Range>, b: seq<Range>, c: seq<Range>, d: seq<Range>)
    ensures a + (b + c + d) == a + b + c + d
  {
  }

  /** Append the range up to `next` unless it is empty. */
  method ExtendTo(ranges: seq<Range>, cursor: nat, next: nat) returns (r: seq<Range>)
    requires Tiles(ranges, 0, cursor) && cursor <= next
    ensures Tiles(r, 0, next) && r == if cursor < next then ranges + [(cursor, next)] else ranges
  {
    hide Tiles;
    r := ranges;
    if cursor < next {
      OneTile(cursor, next);
      TilesConcat(ranges, [(cursor, next)], 0, cursor, next);
      r := ranges + [(cursor, next)];
    }
  }

  /** One structural range of `_python_drafts`. */
  method StructuralDrafts(c: Config, block: Block, lines: seq<Line>, range: Range)
    returns (r: Result<seq<Draft>>, ghost groups: seq<Group>)
    requires ConfigOk(c) && InText(Content(block), lines) && range.0 < range.1 <= |lines|
    ensures r.Ok? ==> DraftsOf(c, block, r.value) && RangeShown(c, block, lines, range, groups, r.value)
    ensures r.Err? ==> !RangeBuilds(c, block, lines, range)
  {
    hide DraftOk, BodyLimits, WithinBudget, TooWide, StripNewlines, Blank, LinesOf, Shown, Tiles, AllShowable;
    var content := Content(block);
    var (maxChars, maxBytes) := BodyLimits(c, block, CodeContent, false);
    LimitsLeaveRoom(c, block, CodeContent, false);
    FourBytesSuffice(content, 0, |content|, maxBytes);
    AtIncreases(lines, |content|, range.0, range.1);
    var start, end := At(lines, |content|, range.0), At(lines, |content|, range.1);
    var segment := content[start..end];
    if Blank(segment) {
      return Ok([]), [];
    }
    var found: seq<Group>;
    if WithinBudget(segment, maxChars, maxBytes) && range.1 - range.0 <= c.codeWindowLines {
      StripFits(segment, maxChars, maxBytes);
      found := [Group(range.0, range.1, (start, end), StripNewlines(segment), true)];
    } else {
      var grouped := RangeGroups(content, lines, range.0, range.1, c.codeWindowLines, maxChars, maxBytes);
      found := grouped.value;
    }
    groups := found;
    assert RangeWindows(c, block, lines, range, groups);
    r := PartDrafts(c, block, CodeContent, content, GroupParts(found), false);
    if r.Err? {
      RangeRefused(c, block, lines, range, groups);
    }
  }

  lemma RangeRefused(c: Config, block: Block, lines: seq<Line>, range: Range, groups: seq<Group>)
    requires !BlankRange(block, lines, range) && RangeWindows(c, block, lines, range, groups)
    requires !AllShowable(block, Content(block), GroupParts(groups))
    ensures !RangeBuilds(c, block, lines, range)
  {
    hide RangeWindows, AllShowable, BlankRange;
    if RangeBuilds(c, block, lines, range) {
      var other :| RangeWindows(c, block, lines, range, other) && AllShowable(block, Content(block), GroupParts(other));
      RangeWindowsDetermined(c, block, lines, range, groups, other);
    }
  }

  /** `_python_drafts`, given what parsing found. */
  method PythonDrafts(c: Config, block: Block) returns (r: Result<seq<Draft>>)
    requires ConfigOk(c) && block.structure.Some? && StructureOk(block)
    ensures r.Ok? ==> DraftsOf(c, block, r.value) && PythonShown(c, block, r.value)
    ensures r.Err? ==> !PythonBuilds(c, block)
  {
    hide DraftOk, LinesFrom, StripNewlines, LinesOf, RangeShown, Tiles, LinesShown, WithGaps, LinesBuild, RangeBuilds;
    var content := Content(block);
    if content == "" {
      return Ok([]);
    }
    if block.structure.value == [] {
      ghost var groups;
      r, groups := LineDrafts(c, block, CodeContent, c.codeWindowLines);
      return;
    }
    var lines := LinesFrom(content, 0);
    LinesInText(content);
    var ranges := StructuralRanges(block.structure.value, |lines|);
    TilesOrdered(ranges, 0, |lines|);
    UnitsNonEmpty(ranges, 0, |lines|);
    var drafts: seq<Draft> := [];
    ghost var parts: seq<seq<Draft>> := [];
    for k := 0 to |ranges|
      invariant DraftsOf(c, block, drafts) && |parts| == k && drafts == Flatten(parts)
      invariant AllRangesShown(c, block, lines, ranges, parts)
    {
      var more, groups := StructuralDrafts(c, block, lines, ranges[k]);
      if more.Err? {
        assert ranges[k] in PythonRanges(block);
        return more;
      }
      FlattenSnoc(parts, more.value);
      assert SomehowShown(c, block, lines, ranges[k], more.value);
      parts := parts + [more.value];
      drafts := drafts + more.value;
    }
    return Ok(drafts);
  }

  /** `_table_drafts` */
  method TableDrafts(c: Config, block: Block, fingerprint: string -> string)
    returns (r: Result<seq<Draft>>, ghost groups: seq<RowGroup>)
    requires ConfigOk(c)
    ensures r.Ok? ==> DraftsOf(c, block, r.value) && TableShown(c, block, fingerprint, groups, r.value)
    ensures r.Err? ==> !TableBuilds(c, block, fingerprint)
  {
    hide BodyLimits, WithinBudget, LinesFrom, Markers, LinesOf, Shown, Tiles, RowGroupsOk, AllShowable;
    groups := [];
    var raw := block.raw;
    var lines := LinesFrom(raw, 0);
    LinesInText(raw);
    var (maxChars, maxBytes) := BodyLimits(c, block, TableContent, false);
    LimitsLeaveRoom(c, block, TableContent, false);
    if |lines| <= 2 {
      var display := raw;
      if !WithinBudget(raw, maxChars, maxBytes) {
        display := BoundedMarker("table", raw, fingerprint(raw), maxChars, maxBytes);
      }
      return Ok([Draft([block], display, TableContent, block.span, false)]), [];
    }
    var texts := LineTexts(raw, lines);
    var rows := RowGroups(texts[..2], texts[2..], fingerprint, c.tableRowsPerChunk, maxChars, maxBytes);
    RowPartsFit(c, block, texts[..2], texts[2..], fingerprint, lines, rows);
    groups := rows;
    assert RowWindows(c, block, fingerprint, groups);
    r := PartDrafts(c, block, TableContent, raw, RowParts(lines, |raw|, rows), false);
    if r.Err? {
      TableRefused(c, block, fingerprint, groups);
    }
  }

  lemma TableRefused(c: Config, block: Block, fingerprint: string -> string, groups: seq<RowGroup>)
    requires |LinesFrom(block.raw, 0)| > 2 && RowWindows(c, block, fingerprint, groups)
    requires !AllShowable(block, block.raw, RowParts(LinesFrom(block.raw, 0), |block.raw|, groups))
    ensures !TableBuilds(c, block, fingerprint)
  {
    hide RowWindows, AllShowable, LinesFrom;
    if TableBuilds(c, block, fingerprint) {
      var other :| RowWindows(c, block, fingerprint, other)
                   && AllShowable(block, block.raw, RowParts(LinesFrom(block.raw, 0), |block.raw|, other));
      RowWindowsDetermined(c, block, fingerprint, groups, other);
    }
  }

  lemma RowPartsFit(c: Config, block: Block, header: seq<string>, rows: seq<string>, fingerprint: string -> string,
                    lines: seq<Line>, groups: seq<RowGroup>)
    requires c.tableRowsPerChunk >= 1 && InText(block.raw, lines)
    requires RowGroupsOk(header, rows, fingerprint, c.tableRowsPerChunk, BodyLimits(c, block, TableContent, false).0,
                         BodyLimits(c, block, TableContent, false).1, groups)
    ensures PartsFit(c, block, TableContent, block.raw, RowParts(lines, |block.raw|, groups))
  {
    hide BodyLimits, WithinBudget, LinesOf, Markers;
    forall k | 0 <= k < |groups|
      ensures var range := RowPart(lines, |block.raw|, groups[k]).range; range.0 <= range.1 <= |block.raw|
    {
      var g := groups[k];
      assert RowGroupOk(header, rows, fingerprint, c.tableRowsPerChunk, BodyLimits(c, block, TableContent, false).0,
                        BodyLimits(c, block, TableContent, false).1, g);
      AtIncreases(lines, |block.raw|, if !g.marker && g.first == 0 then 0 else 2 + g.first, 2 + g.last);
    }
  }

  /** `_block_drafts`: refused only if the block cannot be built. */
  method BlockDrafts(c: Config, block: Block, fingerprint: string -> string) returns (r: Result<seq<Draft>>)
    requires ConfigOk(c) && StructureOk(block)
    ensures r.Ok? ==> DraftsOf(c, block, r.value) && BlockShown(c, block, fingerprint, r.value)
    ensures r.Err? ==> !BlockBuilds(c, block, fingerprint)
    ensures r.Ok? ==> (BlockBuilds(c, block, fingerprint) <==> AllSolid(r.value))
  {
    hide DraftsOf, StructureOk, LinesShown, TableShown, ProseShown, PythonShown, LinesBuild, TableBuilds, ProseBuilds,
         PythonBuilds, AllSolid;
    match block.kind {
      case Code =>
        if IsPython(block.language) && block.structure.Some? {
          r := PythonDrafts(c, block);
        } else {
          ghost var groups;
          r, groups := LineDrafts(c, block, CodeContent, c.codeWindowLines);
        }
      case Mermaid =>
        ghost var groups;
        r, groups := LineDrafts(c, block, MermaidContent, c.mermaidWindowLines);
      case Table =>
        ghost var groups;
        r, groups := TableDrafts(c, block, fingerprint);
      case _ =>
        ghost var pieces;
        r, pieces := ProseDrafts(c, block);
    }
    if r.Ok? {
      BlockIff(c, block, fingerprint, r.value);
    }
  }

  // ------------------------------------------------------------------ build

  datatype Chunk = Chunk(parents: seq<string>, display: string, embedding: string, kind: ContentType, index: nat,
                         headingPath: seq<string>, span: Span, tokens: nat)

  datatype Failure = DisplayOverLimit | TokensOverLimit | BlankChunk | DraftRefused

  datatype Sealed = Chunked(chunk: Chunk) | Rejected(why: Failure)

  datatype BuildResult = Built(chunks: seq<Chunk>) | Failed(why: Failure)

  function ParentIds(blocks: seq<Block>): seq<string> {
    seq(|blocks|, k requires 0 <= k < |blocks| => blocks[k].id)
  }

  /** One draft through the checks of `build` and of the chunk record. */
  function Seal(c: Config, d: Draft, index: nat): Sealed
    requires d.blocks != []
  {
    var embedding := EmbeddingText(c, d.blocks[0], d.display, d.kind);
    if |d.display| > c.hardLimitChars then Rejected(DisplayOverLimit)
    else if EstimateTokens(embedding) > c.maxTokens then Rejected(TokensOverLimit)
    else if Blank(d.display) || Blank(embedding) then Rejected(BlankChunk)
    else Chunked(Chunk(ParentIds(d.blocks), d.display, embedding, d.kind, index, d.blocks[0].headingPath, d.span,
                       EstimateTokens(embedding)))
  }

  /** For a draft within its body limits neither limit check can fire. */
  lemma LimitChecksNeverFire(c: Config, d: Draft, index: nat)
    requires ConfigOk(c) && DraftOk(c, d)
    ensures Seal(c, d, index) != Rejected(DisplayOverLimit) && Seal(c, d, index) != Rejected(TokensOverLimit)
  {
    hide EmbeddingText, EstimateTokens, BodyLimits, WithinBudget;
    BodyFitsChunk(c, d.blocks[0], d.kind, false, d.display);
  }

  predicate IsBarrier(kind: BlockType) { kind in {Frontmatter, Heading, ThematicBreak} }

  /** A chunk respects both limits of the configuration. */
  predicate ChunkOk(c: Config, chunk: Chunk) {
    && |chunk.display| <= c.hardLimitChars && EstimateTokens(chunk.embedding) == chunk.tokens <= c.maxTokens
    && !Blank(chunk.display) && !Blank(chunk.embedding)
  }

  function Present(drafts: seq<Draft>): Stream {
    seq(|drafts|, k requires 0 <= k < |drafts| => Some(drafts[k]))
  }

  /** A draft within its limits is rejected exactly when its display is blank. */
  lemma SealIff(c: Config, d: Draft, index: nat)
    requires ConfigOk(c) && DraftOk(c, d)
    ensures Seal(c, d, index) == Rejected(BlankChunk) <==> Blank(d.display)
    ensures Seal(c, d, index).Rejected? ==> Seal(c, d, index).why == BlankChunk
  {
    hide EmbeddingPrefix, EstimateTokens, BodyLimits, WithinBudget;
    LimitChecksNeverFire(c, d, index);
    if !Blank(d.display) {
      var k :| 0 <= k < |d.display| && !IsSpace(d.display[k]);
      var embedding := EmbeddingText(c, d.blocks[0], d.display, d.kind);
      assert embedding[|embedding| - |d.display| + k] == d.display[k];
    }
  }

  /** The chunk of a draft: its blocks in order as parents, its display, kind and span, the headings of its first block,
      the embedding text for all these, and a token for every four bytes of that, begun ones included. */
  ghost predicate ChunkOf(c: Config, d: Draft, index: nat, chunk: Chunk) {
    && d.blocks != [] && |chunk.parents| == |d.blocks|
    && (forall k :: 0 <= k < |d.blocks| ==> chunk.parents[k] == d.blocks[k].id)
    && chunk.display == d.display && chunk.kind == d.kind && chunk.span == d.span && chunk.index == index
    && chunk.headingPath == d.blocks[0].headingPath
    && Embeds(c, chunk.headingPath, d.blocks[0].language, chunk.kind, chunk.display, chunk.embedding)
    && 4 * (chunk.tokens - 1) < Bytes(chunk.embedding) <= 4 * chunk.tokens
  }

  lemma SealMeans(c: Config, d: Draft, index: nat)
    requires d.blocks != []
    ensures Seal(c, d, index).Chunked? ==>
              ChunkOf(c, d, index, Seal(c, d, index).chunk) && ChunkOk(c, Seal(c, d, index).chunk)
  {
    hide EmbeddingText, Embeds;
    if Seal(c, d, index).Chunked? {
      var chunk := Seal(c, d, index).chunk;
      EmbeddingMeans(c, d.blocks[0], d.display, d.kind, chunk.embedding);
      assert chunk.embedding != [];
    }
  }

  /** What a block contributes to the stream: a barrier, or its drafts. */
  ghost predicate Contributes(c: Config, block: Block, fingerprint: string -> string, entries: Stream)
    requires ConfigOk(c)
  {
    if IsBarrier(block.kind) then entries == [None]
    else exists drafts :: && DraftsOf(c, block, drafts) && BlockShown(c, block, fingerprint, drafts)
                          && entries == Present(drafts)
  }

  ghost predicate AllContribute(c: Config, blocks: seq<Block>, fingerprint: string -> string, parts: seq<Stream>)
    requires ConfigOk(c)
  {
    |parts| <= |blocks| && forall k :: 0 <= k < |parts| ==> Contributes(c, blocks[k], fingerprint, parts[k])
  }

  /** The block is a barrier or can be built. */
  ghost predicate Passes(c: Config, block: Block, fingerprint: string -> string)
    requires ConfigOk(c)
  {
    !IsBarrier(block.kind) ==> BlockBuilds(c, block, fingerprint)
  }

  lemma BarrierContributes(c: Config, block: Block, fingerprint: string -> string)
    requires ConfigOk(c) && IsBarrier(block.kind)
    ensures Contributes(c, block, fingerprint, [None]) && StreamOk(c, [None])
  {
  }

  lemma DraftsContribute(c: Config, block: Block, fingerprint: string -> string, drafts: seq<Draft>)
    requires ConfigOk(c) && !IsBarrier(block.kind) && DraftsOf(c, block, drafts)
             && BlockShown(c, block, fingerprint, drafts)
    ensures Contributes(c, block, fingerprint, Present(drafts)) && StreamOk(c, Present(drafts))
  {
    hide BlockShown, DraftOk;
  }

  lemma Refused(c: Config, block: Block, fingerprint: string -> string)
    requires ConfigOk(c) && !IsBarrier(block.kind) && !BlockBuilds(c, block, fingerprint)
    ensures !Passes(c, block, fingerprint)
  {
    hide BlockBuilds;
  }

  /** The stream of what the first blocks contribute. */
  ghost predicate Streamed(c: Config, blocks: seq<Block>, fingerprint: string -> string, parts: seq<Stream>,
                           stream: Stream)
    requires ConfigOk(c)
  {
    StreamOk(c, stream) && stream == Flatten(parts) && AllContribute(c, blocks, fingerprint, parts)
  }

  lemma NothingStreamed(c: Config, blocks: seq<Block>, fingerprint: string -> string)
    requires ConfigOk(c)
    ensures Streamed(c, blocks, fingerprint, [], [])
  {
  }

  lemma OneMoreStreamed(c: Config, blocks: seq<Block>, fingerprint: string -> string, parts: seq<Stream>,
                        stream: Stream,
                        entries: Stream)
    requires ConfigOk(c) && Streamed(c, blocks, fingerprint, parts, stream) && |parts| < |blocks|
    requires Contributes(c, blocks[|parts|], fingerprint, entries) && StreamOk(c, entries)
    ensures Streamed(c, blocks, fingerprint, parts + [entries], stream + entries)
  {
    hide DraftOk, Contributes;
    FlattenSnoc(parts, entries);
  }

  /** The stream of drafts and barriers, in document order. */
  method DraftStream(c: Config, blocks: seq<Block>, fingerprint: string -> string)
    returns (r: Result<Stream>, ghost parts: seq<Stream>)
    requires ConfigOk(c) && forall k :: 0 <= k < |blocks| ==> StructureOk(blocks[k])
    ensures r.Ok? ==> |parts| == |blocks| && Streamed(c, blocks, fingerprint, parts, r.value)
    ensures r.Err? ==> exists k :: 0 <= k < |blocks| && !Passes(c, blocks[k], fingerprint)
  {
    hide StructureOk, Contributes, Passes, Present, Streamed, StreamOk, BlockBuilds, BlockShown, DraftsOf;
    var stream: Stream := [];
    parts := [];
    NothingStreamed(c, blocks, fingerprint);
    for i := 0 to |blocks|
      invariant |parts| == i && Streamed(c, blocks, fingerprint, parts, stream)
    {
      var entries: Stream;
      var kind := blocks[i].kind;
      if kind == Frontmatter || kind == Heading || kind == ThematicBreak {
        entries := [None];
        BarrierContributes(c, blocks[i], fingerprint);
      } else {
        var drafts := BlockDrafts(c, blocks[i], fingerprint);
        if drafts.Err? {
          Refused(c, blocks[i], fingerprint);
          return Err(drafts.error), parts;
        }
        entries := Present(drafts.value);
        DraftsContribute(c, blocks[i], fingerprint, drafts.value);
      }
      OneMoreStreamed(c, blocks, fingerprint, parts, stream, entries);
      parts := parts + [entries];
      stream := stream + entries;
    }
    return Ok(stream), parts;
  }

  /** A run of `build`: what the blocks contribute, the merged drafts, and the entries each of them merges. */
  datatype Trace = Trace(parts: seq<Stream>, drafts: seq<Draft>, runs: seq<Range>)

  ghost predicate TraceOf(c: Config, blocks: seq<Block>, fingerprint: string -> string, t: Trace)
    requires ConfigOk(c)
  {
    var stream := Flatten(t.parts);
    && |t.parts| == |blocks| && AllContribute(c, blocks, fingerprint, t.parts)
    && StreamOk(c, stream) && AllDraftsOk(c, t.drafts) && BlocksOf(t.drafts) == StreamBlocks(stream)
    && Runs(c, stream, |stream|, t.drafts, t.runs)
  }

  ghost predicate SolidEntries(entries: Stream) {
    forall e :: e in entries && e.Some? ==> !Blank(e.value.display)
  }

  lemma ContributionIff(c: Config, block: Block, fingerprint: string -> string, entries: Stream)
    requires ConfigOk(c) && Contributes(c, block, fingerprint, entries)
    ensures SolidEntries(entries) <==> Passes(c, block, fingerprint)
    ensures forall e :: e in entries && e.Some? && e.value.mergeable ==> !Blank(e.value.display)
  {
    hide BlockShown, BlockBuilds, Blank, AllDraftsOk;
    if !IsBarrier(block.kind) {
      var drafts: seq<Draft> :| DraftsOf(c, block, drafts) && BlockShown(c, block, fingerprint, drafts)
          && entries == Present(drafts);
      BlockIff(c, block, fingerprint, drafts);
      forall k | 0 <= k < |drafts| ensures Some(drafts[k]) in entries && (drafts[k].mergeable ==>
          !Blank(drafts[k].display)) {
        assert entries[k] == Some(drafts[k]);
        if drafts[k].mergeable {
          MergeableIsSolid(c, block, fingerprint, drafts, k);
        }
      }
      forall e | e in entries ensures exists k :: 0 <= k < |drafts| && e == Some(drafts[k]) {
        var k :| 0 <= k < |entries| && entries[k] == e;
      }
    }
  }

  /** No merged draft is blank exactly when every block passes. */
  lemma SolidTrace(c: Config, blocks: seq<Block>, fingerprint: string -> string, t: Trace)
    requires ConfigOk(c) && TraceOf(c, blocks, fingerprint, t)
    ensures AllSolid(t.drafts) <==> forall k :: 0 <= k < |blocks| ==> Passes(c, blocks[k], fingerprint)
  {
    hide Contributes, Passes, Runs, Blank, StreamOk, Flatten;
    var stream := Flatten(t.parts);
    forall k | 0 <= k < |blocks|
      ensures SolidEntries(t.parts[k]) <==> Passes(c, blocks[k], fingerprint)
      ensures forall e :: e in t.parts[k] && e.Some? && e.value.mergeable ==> !Blank(e.value.display)
    {
      ContributionIff(c, blocks[k], fingerprint, t.parts[k]);
    }
    forall e ensures e in stream <==> exists k :: 0 <= k < |t.parts| && e in t.parts[k] {
      FlattenMember(t.parts, e);
    }
    forall n | 0 <= n < |stream| && stream[n].Some? && stream[n].value.mergeable
      ensures !Blank(stream[n].value.display)
    {
      assert stream[n] in stream;
    }
    SolidStream(c, stream, t.drafts, t.runs);
    assert SolidEntries(stream) <==> forall k :: 0 <= k < |blocks| ==> SolidEntries(t.parts[k]);
  }

  /** `build`: it succeeds exactly when every block passes, and then gives one chunk per merged draft, within
      both limits. Neither limit error is ever raised. */
  method Build(c: Config, blocks: seq<Block>, fingerprint: string -> string) returns (r: BuildResult, ghost t: Trace)
    requires ConfigOk(c) && forall k :: 0 <= k < |blocks| ==> StructureOk(blocks[k])
    ensures r != Failed(DisplayOverLimit) && r != Failed(TokensOverLimit)
    ensures r.Built? <==> forall k :: 0 <= k < |blocks| ==> Passes(c, blocks[k], fingerprint)
    ensures r.Built? ==> && TraceOf(c, blocks, fingerprint, t) && |r.chunks| == |t.drafts|
                         && forall k :: 0 <= k < |r.chunks| ==> ChunkOf(c, t.drafts[k], k, r.chunks[k])
    ensures r.Built? ==> forall k :: 0 <= k < |r.chunks| ==> ChunkOk(c, r.chunks[k])
  {
    hide Seal, BodyLimits, WithinBudget, StructureOk, Blank, AllContribute, Runs, Passes, ChunkOf, ChunkOk;
    var stream, parts := DraftStream(c, blocks, fingerprint);
    if stream.Err? {
      return Failed(DraftRefused), Trace([], [], []);
    }
    var drafts, runs := MergeSmallDrafts(c, stream.value);
    t := Trace(parts, drafts, runs);
    SolidTrace(c, blocks, fingerprint, t);
    var chunks: seq<Chunk> := [];
    for i := 0 to |drafts|
      invariant |chunks| == i
      invariant forall k :: 0 <= k < |chunks| ==> ChunkOf(c, drafts[k], k, chunks[k]) && ChunkOk(c, chunks[k])
      invariant forall k :: 0 <= k < |chunks| ==> !Blank(drafts[k].display)
    {
      var sealed := Seal(c, drafts[i], i);
      SealIff(c, drafts[i], i);
      SealMeans(c, drafts[i], i);
      if sealed.Rejected? {
        return Failed(sealed.why), t;
      }
      chunks := chunks + [sealed.chunk];
    }
    return Built(chunks), t;
  }
}
