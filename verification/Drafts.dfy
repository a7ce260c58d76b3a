/** Chunk drafts: embedding prefixes, body limits, and the merging of small neighbours. */
module Drafts {
  import opened Sequences
  import opened Unicode
  import opened Splitting
  import opened Texts
  import opened RawBounds

  datatype Config = Config(minChars: int, targetChars: int, hardLimitChars: int, maxTokens: int, overlapChars: int,
                           codeWindowLines: int, tableRowsPerChunk: int, mermaidWindowLines: int)

  /** `StructuralChunkingConfig.__post_init__` */
  predicate ConfigOk(c: Config) {
    && c.minChars >= 1 && c.targetChars >= 1 && c.hardLimitChars >= 1 && c.maxTokens >= 1 && c.codeWindowLines >= 1
    && c.tableRowsPerChunk >= 1 && c.mermaidWindowLines >= 1 && c.overlapChars >= 0
    && c.targetChars <= c.hardLimitChars && c.minChars <= c.targetChars
  }

  datatype BlockType = Frontmatter | Heading | Paragraph | ListBlock | Blockquote | Callout | Code | Mermaid | Table
                     | ThematicBreak | UnknownBlock

  datatype ContentType = TextContent | ListContent | QuoteContent | CalloutContent | CodeContent | TableContent
                       | MermaidContent | UnknownContent

  /** Lines are counted from one. */
  type LineNumber = n: int | 1 <= n witness 1

  /** Lines, and offsets into the document when known. */
  datatype Span = Span(startLine: LineNumber, endLine: LineNumber, offsets: Option<(nat, nat)>)

  /** A source block. `projection` is the optional list of projection rows; `structure` is what parsing
      Python content found: nothing if it does not parse, else the line ranges of its definitions. */
  datatype Block = Block(id: string, kind: BlockType, raw: string, plain: Option<string>, language: Option<string>,
                         headingPath: seq<string>, span: Span,
                         projection: Option<seq<seq<nat>>>, structure: Option<seq<Range>>)

  // ------------------------------------------------------------- embedding

  function Label(block: Block, kind: ContentType): string {
    match kind
    case CodeContent =>
      "[code:" + (if block.language.Some? && block.language.value != "" then block.language.value else "text") + "]"
    case MermaidContent => "[mermaid diagram]"
    case TextContent => ""
    case ListContent => "[list]"
    case QuoteContent => "[blockquote]"
    case CalloutContent => "[callout]"
    case TableContent => "[table]"
    case UnknownContent => "[unknown]"
  }

  /** The longest prefix of at most so many bytes, found by dropping characters from the end. */
  function Truncate(text: string, maxBytes: nat): (r: string)
    ensures r <= text && Bytes(r) <= maxBytes
  {
    if text == [] || Bytes(text) <= maxBytes then text else Truncate(text[..|text| - 1], maxBytes)
  }

  function StripRight(text: string): (r: string)
    ensures r <= text
  {
    if text == [] || !IsSpace(text[|text| - 1]) then text else StripRight(text[..|text| - 1])
  }

  function FullPrefix(block: Block, kind: ContentType): string {
    var heading, tag := Join(block.headingPath, " > "), Label(block, kind);
    if heading == "" then tag else if tag == "" then heading else heading + "\n" + tag
  }

  /** `_embedding_prefix` */
  function EmbeddingPrefix(c: Config, block: Block, kind: ContentType): string {
    if c.maxTokens * 4 - 6 <= 0 then ""
    else StripRight(Truncate(FullPrefix(block, kind), c.maxTokens * 4 - 6))
  }

  /** The truncation of `_embedding_prefix` as its loop runs. */
  method ComputeTruncation(text: string, maxBytes: nat) returns (end: nat)
    ensures end <= |text| && text[..end] == Truncate(text, maxBytes)
    ensures end < |text| ==> Bytes(text[..end + 1]) > maxBytes
  {
    end := |text|;
    assert text[..end] == text;
    while end > 0 && Bytes(text[..end]) > maxBytes
      invariant end <= |text| && Truncate(text, maxBytes) == Truncate(text[..end], maxBytes)
      invariant end < |text| ==> Bytes(text[..end + 1]) > maxBytes
    {
      assert text[..end][..end - 1] == text[..end - 1];
      end := end - 1;
    }
  }

  /** `_embedding_text` */
  function EmbeddingText(c: Config, block: Block, display: string, kind: ContentType): string {
    var prefix := EmbeddingPrefix(c, block, kind);
    if prefix == "" then display else prefix + "\n\n" + display
  }

  /** `estimate_tokens` */
  function EstimateTokens(text: string): nat {
    var tokens := (Bytes(text) + 3) / 4;
    if tokens < 1 then 1 else tokens
  }

  function AtLeastOne(n: int): nat { if n < 1 then 1 else n }

  /** `_body_limits`: what remains for the body once the prefix is in place. */
  function BodyLimits(c: Config, block: Block, kind: ContentType, useTarget: bool): (nat, nat) {
    var prefix := EmbeddingPrefix(c, block, kind);
    var separator := if prefix == "" then 0 else 2;
    var limit := if useTarget then c.targetChars else c.hardLimitChars;
    (AtLeastOne(if limit < c.hardLimitChars then limit else c.hardLimitChars),
     AtLeastOne(c.maxTokens * 4 - Bytes(prefix) - separator))
  }

  lemma PrefixBytes(a: string, b: string)
    requires a <= b
    ensures Bytes(a) <= Bytes(b)
  {
    assert b == a + b[|a|..];
    BytesConcat(a, b[|a|..]);
  }

  /** Whatever the headings and language, at least four bytes remain for the body, so neither clamp is
      ever needed and no character is too wide. */
  lemma LimitsLeaveRoom(c: Config, block: Block, kind: ContentType, useTarget: bool)
    requires ConfigOk(c)
    ensures var (maxChars, maxBytes) := BodyLimits(c, block, kind, useTarget);
            && 1 <= maxChars <= c.hardLimitChars && maxBytes >= 4
            && maxBytes == c.maxTokens * 4 - Bytes(EmbeddingPrefix(c, block, kind))
                           - (if EmbeddingPrefix(c, block, kind) == "" then 0 else 2)
            && maxChars == if useTarget then c.targetChars else c.hardLimitChars
  {
    hide FullPrefix;
    if c.maxTokens * 4 - 6 > 0 {
      PrefixBytes(EmbeddingPrefix(c, block, kind), Truncate(FullPrefix(block, kind), c.maxTokens * 4 - 6));
    }
    assert EmbeddingPrefix(c, block, kind) == "" ==> Bytes(EmbeddingPrefix(c, block, kind)) == 0;
  }

  lemma FourBytesSuffice(text: string, lo: nat, hi: nat, maxBytes: nat)
    requires lo <= hi <= |text| && maxBytes >= 4
    ensures !TooWide(text, lo, hi, maxBytes)
  {
  }

  /** A body within the limits keeps the chunk within both of its own limits. */
  lemma BodyFitsChunk(c: Config, block: Block, kind: ContentType, useTarget: bool, display: string)
    requires ConfigOk(c)
    requires WithinBudget(display, BodyLimits(c, block, kind, useTarget).0, BodyLimits(c, block, kind, useTarget).1)
    ensures |display| <= c.hardLimitChars
    ensures EstimateTokens(EmbeddingText(c, block, display, kind)) <= c.maxTokens
  {
    hide EmbeddingPrefix;
    LimitsLeaveRoom(c, block, kind, useTarget);
    var prefix := EmbeddingPrefix(c, block, kind);
    if prefix != "" {
      BytesConcat(prefix + "\n\n", display);
      BytesConcat(prefix, "\n\n");
      assert Bytes("\n\n") == 2;
    }
  }

  // ---------------------------------------------------------------- drafts

  datatype Draft = Draft(blocks: seq<Block>, display: string, kind: ContentType, span: Span, mergeable: bool)

  /** A draft respects the body limits of its first block. */
  predicate DraftOk(c: Config, d: Draft) {
    d.blocks != [] &&
    WithinBudget(d.display, BodyLimits(c, d.blocks[0], d.kind, false).0, BodyLimits(c, d.blocks[0], d.kind, false).1)
  }

  predicate AllDraftsOk(c: Config, drafts: seq<Draft>) {
    forall k :: 0 <= k < |drafts| ==> DraftOk(c, drafts[k])
  }

  /** The target limits are the tighter ones. */
  lemma TargetImpliesHard(c: Config, block: Block, kind: ContentType, display: string)
    requires ConfigOk(c)
    requires WithinBudget(display, BodyLimits(c, block, kind, true).0, BodyLimits(c, block, kind, true).1)
    ensures WithinBudget(display, BodyLimits(c, block, kind, false).0, BodyLimits(c, block, kind, false).1)
  {
    hide EmbeddingPrefix, Bytes;
  }

  function UnionSpan(a: Span, b: Span): Span {
    var first := if a.startLine < b.startLine then a.startLine else b.startLine;
    var last := if a.endLine > b.endLine then a.endLine else b.endLine;
    if a.offsets.None? || b.offsets.None? then Span(first, last, None)
    else
      var lo := if a.offsets.value.0 < b.offsets.value.0 then a.offsets.value.0 else b.offsets.value.0;
      var hi := if a.offsets.value.1 > b.offsets.value.1 then a.offsets.value.1 else b.offsets.value.1;
      Span(first, last, Some((lo, hi)))
  }

  predicate MergeableKind(kind: ContentType) {
    kind == TextContent || kind == ListContent || kind == QuoteContent
  }

  /** `_merge_pair` */
  function MergePair(c: Config, left: Draft, right: Draft): Option<Draft>
    requires left.blocks != [] && right.blocks != []
  {
    if left.kind != right.kind || left.blocks[0].headingPath != right.blocks[0].headingPath || !MergeableKind(left.kind)
    then None
    else
      var display := left.display + "\n\n" + right.display;
      var (maxChars, maxBytes) := BodyLimits(c, left.blocks[0], left.kind, true);
      if WithinBudget(display, maxChars, maxBytes)
      then Some(Draft(left.blocks + right.blocks, display, left.kind, UnionSpan(left.span, right.span), true))
      else None
  }

  // --------------------------------------------------------------- merging

  type Stream = seq<Option<Draft>>

  ghost predicate StreamOk(c: Config, stream: Stream) {
    forall k :: 0 <= k < |stream| && stream[k].Some? ==> DraftOk(c, stream[k].value)
  }

  function BlocksOf(drafts: seq<Draft>): seq<Block> {
    if drafts == [] then [] else BlocksOf(drafts[..|drafts| - 1]) + drafts[|drafts| - 1].blocks
  }

  function StreamBlocks(stream: Stream): seq<Block> {
    if stream == [] then []
    else
      var last := stream[|stream| - 1];
      StreamBlocks(stream[..|stream| - 1]) + if last.Some? then last.value.blocks else []
  }

  /** The draft obtained by merging the stream entries `lo..hi` one after the other. */
  ghost predicate MergedRun(c: Config, stream: Stream, lo: nat, hi: nat, d: Draft)
    requires lo < hi <= |stream| && StreamOk(c, stream)
    decreases hi - lo
  {
    if hi == lo + 1 then stream[lo] == Some(d)
    else
      && stream[hi - 1].Some? && stream[hi - 1].value.mergeable
      && exists left :: MergedRun(c, stream, lo, hi - 1, left) && left.mergeable && left.blocks != []
                        && MergePair(c, left, stream[hi - 1].value) == Some(d)
                            && OneIsShort(c, left, stream[hi - 1].value)
  }

  predicate OneIsShort(c: Config, left: Draft, right: Draft) {
    |left.display| < c.minChars || |right.display| < c.minChars
  }

  /** A run of several entries holds no barrier and no draft that must stay alone. */
  lemma {:induction false} RunIsMergeable(c: Config, stream: Stream, lo: nat, hi: nat, d: Draft)
    requires lo + 1 < hi <= |stream| && StreamOk(c, stream) && MergedRun(c, stream, lo, hi, d)
    ensures d.mergeable && forall p :: lo <= p < hi ==> stream[p].Some? && stream[p].value.mergeable
    ensures forall p :: lo <= p < hi ==> stream[p].value.kind == d.kind && MergeableKind(d.kind)
    decreases hi - lo
  {
    hide WithinBudget, BodyLimits;
    var left :| MergedRun(c, stream, lo, hi - 1, left) && left.mergeable && left.blocks != []
                && MergePair(c, left, stream[hi - 1].value) == Some(d) && OneIsShort(c, left, stream[hi - 1].value);
    if lo + 2 < hi {
      RunIsMergeable(c, stream, lo, hi - 1, left);
    }
  }

  /** Neighbours are left apart only if they cannot merge or both are long enough. */
  ghost predicate Apart(c: Config, left: Draft, right: Draft) {
    || !left.mergeable || !right.mergeable
    || (left.blocks != [] && right.blocks != [] && MergePair(c, left, right).None?)
    || !OneIsShort(c, left, right)
  }

  /** Read from the end: each output draft is the merge of one run of entries, only barriers lie between
      and around runs, and a run that adjoins the one before it starts with an entry that stays apart
      from the draft before it. */
  ghost predicate Runs(c: Config, stream: Stream, upTo: nat, drafts: seq<Draft>, runs: seq<Range>)
    requires upTo <= |stream| && StreamOk(c, stream)
    decreases |runs|
  {
    if runs == [] then drafts == [] && forall p :: 0 <= p < upTo ==> stream[p].None?
    else
      var n := |runs| - 1;
      && |drafts| == |runs|
      && runs[n].0 < runs[n].1 <= upTo && (forall p :: runs[n].1 <= p < upTo ==> stream[p].None?)
      && MergedRun(c, stream, runs[n].0, runs[n].1, drafts[n])
      && stream[runs[n].0].Some?
      && (n > 0 && runs[n - 1].1 == runs[n].0 ==> Apart(c, drafts[n - 1], stream[runs[n].0].value))
      && Runs(c, stream, runs[n].0, drafts[..n], runs[..n])
  }

  /** Everything the merge loop maintains after the first `n` entries. */
  ghost predicate Merging(c: Config, stream: Stream, n: nat, drafts: seq<Draft>, runs: seq<Range>) {
    && n <= |stream| && StreamOk(c, stream) && AllDraftsOk(c, drafts)
    && Runs(c, stream, n, drafts, runs) && BlocksOf(drafts) == StreamBlocks(stream[..n])
  }

  /** An entry with a draft starts a new run. */
  lemma NewRun(c: Config, stream: Stream, n: nat, drafts: seq<Draft>, runs: seq<Range>)
    requires n < |stream| && Merging(c, stream, n, drafts, runs) && stream[n].Some? && |runs| == |drafts|
    requires runs != [] && runs[|runs| - 1].1 == n ==> Apart(c, drafts[|drafts| - 1], stream[n].value)
    ensures Merging(c, stream, n + 1, drafts + [stream[n].value], runs + [(n, n + 1)])
  {
    hide DraftOk, Apart;
    var d := stream[n].value;
    assert stream[..n + 1][..n] == stream[..n] && (drafts + [d])[..|drafts|] == drafts;
    assert (runs + [(n, n + 1)])[..|runs|] == runs;
    assert MergedRun(c, stream, n, n + 1, d);
  }

  /** A barrier changes nothing. */
  lemma SkipBarrier(c: Config, stream: Stream, n: nat, drafts: seq<Draft>, runs: seq<Range>)
    requires n < |stream| && Merging(c, stream, n, drafts, runs) && stream[n].None?
    ensures Merging(c, stream, n + 1, drafts, runs)
  {
    hide DraftOk, Apart, MergedRun;
    assert stream[..n + 1][..n] == stream[..n];
  }

  /** An entry merged into the last draft extends the last run. */
  lemma ExtendRun(c: Config, stream: Stream, n: nat, drafts: seq<Draft>, last: Draft, runs: seq<Range>, merged: Draft)
    requires ConfigOk(c) && n < |stream| && Merging(c, stream, n, drafts + [last], runs) && stream[n].Some?
    requires runs != [] && runs[|runs| - 1].1 == n && last.mergeable && stream[n].value.mergeable
    requires last.blocks != [] && stream[n].value.blocks != [] && MergePair(c, last, stream[n].value) == Some(merged)
    requires OneIsShort(c, last, stream[n].value)
    ensures Merging(c, stream, n + 1, drafts + [merged], runs[|runs| - 1 := (runs[|runs| - 1].0, n + 1)])
  {
    hide DraftOk, Apart, MergePair;
    var before, after := drafts + [last], drafts + [merged];
    var k := |runs| - 1;
    var wider := runs[k := (runs[k].0, n + 1)];
    assert before[..k] == drafts && after[..k] == drafts && before[k] == last && after[k] == merged;
    assert wider[..k] == runs[..k] && wider[k] == (runs[k].0, n + 1);
    assert stream[..n + 1][..n] == stream[..n];
    MergedOk(c, last, stream[n].value, merged);
    assert MergedRun(c, stream, runs[k].0, n + 1, merged);
    assert AllDraftsOk(c, after) by {
      assert forall j :: 0 <= j < k ==> after[j] == before[j];
    }
    if k > 0 {
      assert before[k - 1] == after[k - 1] && wider[k - 1] == runs[k - 1];
    }
  }

  lemma MergedOk(c: Config, left: Draft, right: Draft, merged: Draft)
    requires ConfigOk(c) && left.blocks != [] && right.blocks != [] && MergePair(c, left, right) == Some(merged)
    ensures DraftOk(c, merged) && merged.blocks == left.blocks + right.blocks && merged.mergeable
  {
    hide EmbeddingPrefix, Bytes;
    TargetImpliesHard(c, left.blocks[0], left.kind, merged.display);
  }

  /** `_merge_small_drafts`: no block is lost, duplicated or reordered; merging never crosses a barrier
      or a draft that is not mergeable; and neighbours stay apart only for a reason. */
  method MergeSmallDrafts(c: Config, stream: Stream) returns (merged: seq<Draft>, ghost runs: seq<Range>)
    requires ConfigOk(c) && StreamOk(c, stream)
    ensures AllDraftsOk(c, merged)
    ensures BlocksOf(merged) == StreamBlocks(stream)
    ensures Runs(c, stream, |stream|, merged, runs)
  {
    hide Merging, MergePair, DraftOk, MergedRun;
    merged, runs := [], [];
    var pending: Option<Draft> := None;
    NothingMerged(c, stream);
    for n := 0 to |stream|
      invariant pending.Some? ==> pending.value.mergeable && pending.value.blocks != []
                                  && runs != [] && runs[|runs| - 1].1 == n
      invariant Merging(c, stream, n, merged + OpenDraft(pending), runs)
      invariant pending.None? && runs != [] && runs[|runs| - 1].1 == n ==>
                  merged != [] && !merged[|merged| - 1].mergeable
    {
      var entry := stream[n];
      ghost var all := merged + OpenDraft(pending);
      LastRun(c, stream, n, all, runs);
      if entry.None? || !entry.value.mergeable {
        merged := merged + OpenDraft(pending);
        pending := None;
        if entry.Some? {
          EntryOk(c, stream, n);
          NewRun(c, stream, n, all, runs);
          merged := merged + [entry.value];
          runs := runs + [(n, n + 1)];
        } else {
          SkipBarrier(c, stream, n, merged, runs);
        }
        assert merged + OpenDraft(None) == merged;
      } else if pending.None? {
        EntryOk(c, stream, n);
        assert all == merged;
        NewRun(c, stream, n, all, runs);
        pending := entry;
        runs := runs + [(n, n + 1)];
      } else {
        EntryOk(c, stream, n);
        var candidate := MergePair(c, pending.value, entry.value);
        if candidate.Some? && (|pending.value.display| < c.minChars || |entry.value.display| < c.minChars) {
          ExtendRun(c, stream, n, merged, pending.value, runs, candidate.value);
          MergedOk(c, pending.value, entry.value, candidate.value);
          pending := candidate;
          runs := runs[|runs| - 1 := (runs[|runs| - 1].0, n + 1)];
        } else {
          assert all[|all| - 1] == pending.value;
          assert Apart(c, pending.value, entry.value);
          NewRun(c, stream, n, all, runs);
          merged := merged + [pending.value];
          pending := entry;
          runs := runs + [(n, n + 1)];
        }
      }
    }
    merged := merged + OpenDraft(pending);
    Merged(c, stream, merged, runs);
  }

  function OpenDraft(pending: Option<Draft>): seq<Draft> {
    if pending.Some? then [pending.value] else []
  }

  lemma LastRun(c: Config, stream: Stream, n: nat, drafts: seq<Draft>, runs: seq<Range>)
    requires Merging(c, stream, n, drafts, runs)
    ensures |runs| == |drafts| && (runs != [] ==> runs[|runs| - 1].1 <= n && drafts[|drafts| - 1].blocks != [])
  {
    hide MergedRun, Apart;
  }

  lemma NothingMerged(c: Config, stream: Stream)
    requires StreamOk(c, stream)
    ensures Merging(c, stream, 0, [] + OpenDraft(None), [])
  {
  }

  lemma EntryOk(c: Config, stream: Stream, n: nat)
    requires StreamOk(c, stream) && n < |stream| && stream[n].Some?
    ensures stream[n].value.blocks != []
  {
  }

  lemma Merged(c: Config, stream: Stream, drafts: seq<Draft>, runs: seq<Range>)
    requires Merging(c, stream, |stream|, drafts, runs)
    ensures AllDraftsOk(c, drafts) && BlocksOf(drafts) == StreamBlocks(stream)
    ensures StreamOk(c, stream) && Runs(c, stream, |stream|, drafts, runs)
  {
    assert stream[..|stream|] == stream;
  }

  // ------------------------------------------------------------- reading runs

  /** A draft that must stay alone comes out of the merge as it went in. */
  lemma {:induction false} AloneStays(c: Config, stream: Stream, upTo: nat, drafts: seq<Draft>, runs: seq<Range>,
                                      n: nat)
    returns (j: nat)
    requires upTo <= |stream| && StreamOk(c, stream) && Runs(c, stream, upTo, drafts, runs)
    requires n < upTo && stream[n].Some? && !stream[n].value.mergeable
    ensures j < |drafts| && drafts[j] == stream[n].value
    decreases |runs|
  {
    hide StreamOk, Apart, MergePair;
    var last := |runs| - 1;
    if n < runs[last].0 {
      j := AloneStays(c, stream, runs[last].0, drafts[..last], runs[..last], n);
    } else {
      if runs[last].0 + 1 < runs[last].1 {
        RunIsMergeable(c, stream, runs[last].0, runs[last].1, drafts[last]);
      }
      j := last;
    }
  }

  lemma OccursInJoined(part: string, left: string, right: string)
    requires Occurs(left, part) || Occurs(right, part)
    ensures Occurs(left + "\n\n" + right, part)
  {
    var whole := left + "\n\n" + right;
    if Occurs(left, part) {
      var i :| OccursAt(left, part, i);
      assert OccursAt(whole, part, i);
    } else {
      var i :| OccursAt(right, part, i);
      var k := |left| + 2 + i;
      assert whole[k..k + |part|] == part;
      assert OccursAt(whole, part, k);
    }
  }

  lemma OccursItself(text: string)
    ensures Occurs(text, text)
  {
    assert OccursAt(text, text, 0);
  }

  /** A merged draft shows every entry of its run. */
  lemma {:induction false} RunShows(c: Config, stream: Stream, lo: nat, hi: nat, d: Draft, n: nat)
    requires lo <= n < hi <= |stream| && StreamOk(c, stream) && MergedRun(c, stream, lo, hi, d)
    ensures stream[n].Some? && Occurs(d.display, stream[n].value.display)
    ensures forall b :: b in stream[n].value.blocks ==> b in d.blocks
    decreases hi - lo
  {
    hide WithinBudget, BodyLimits, Occurs;
    if hi == lo + 1 {
      OccursItself(d.display);
    } else {
      var left :| MergedRun(c, stream, lo, hi - 1, left) && left.mergeable && left.blocks != []
                  && MergePair(c, left, stream[hi - 1].value) == Some(d) && OneIsShort(c, left, stream[hi - 1].value);
      var right := stream[hi - 1].value;
      if n < hi - 1 {
        RunShows(c, stream, lo, hi - 1, left, n);
      } else {
        OccursItself(right.display);
      }
      OccursInJoined(stream[n].value.display, left.display, right.display);
    }
  }

  /** Every entry is shown by some output draft, which has its blocks. */
  lemma {:induction false} EntryShown(c: Config, stream: Stream, upTo: nat, drafts: seq<Draft>, runs: seq<Range>,
                                      n: nat)
    returns (j: nat)
    requires upTo <= |stream| && StreamOk(c, stream) && Runs(c, stream, upTo, drafts, runs)
    requires n < upTo && stream[n].Some?
    ensures j < |drafts| && Occurs(drafts[j].display, stream[n].value.display)
    ensures forall b :: b in stream[n].value.blocks ==> b in drafts[j].blocks
    decreases |runs|
  {
    hide StreamOk, Apart, MergePair, MergedRun, Occurs;
    var last := |runs| - 1;
    if n < runs[last].0 {
      j := EntryShown(c, stream, runs[last].0, drafts[..last], runs[..last], n);
    } else {
      RunShows(c, stream, runs[last].0, runs[last].1, drafts[last], n);
      j := last;
    }
  }

  lemma SolidWhole(part: string, whole: string)
    requires Occurs(whole, part) && !Blank(part)
    ensures !Blank(whole)
  {
    var i: nat :| OccursAt(whole, part, i);
    var k :| 0 <= k < |part| && !IsSpace(part[k]);
    assert whole[i..i + |part|][k] == whole[i + k];
  }

  /** Each output draft shows the first entry of its run. */
  lemma {:induction false} DraftShowsEntry(c: Config, stream: Stream, upTo: nat, drafts: seq<Draft>, runs: seq<Range>,
                                           j: nat)
    returns (n: nat)
    requires upTo <= |stream| && StreamOk(c, stream) && Runs(c, stream, upTo, drafts, runs) && j < |drafts|
    ensures n < upTo && stream[n].Some? && Occurs(drafts[j].display, stream[n].value.display)
    decreases |runs|
  {
    hide StreamOk, Apart, MergePair, MergedRun, Occurs;
    var last := |runs| - 1;
    if j < last {
      n := DraftShowsEntry(c, stream, runs[last].0, drafts[..last], runs[..last], j);
    } else {
      n := runs[last].0;
      RunShows(c, stream, runs[last].0, runs[last].1, drafts[last], n);
    }
  }

  /** If entries that may merge are never blank, no output draft is blank exactly when no entry is. */
  lemma SolidStream(c: Config, stream: Stream, drafts: seq<Draft>, runs: seq<Range>)
    requires StreamOk(c, stream) && Runs(c, stream, |stream|, drafts, runs)
    requires forall n :: 0 <= n < |stream| && stream[n].Some? && stream[n].value.mergeable ==>
               !Blank(stream[n].value.display)
    ensures (forall j :: 0 <= j < |drafts| ==> !Blank(drafts[j].display)) <==>
            (forall n :: 0 <= n < |stream| && stream[n].Some? ==> !Blank(stream[n].value.display))
  {
    hide Runs, Blank, Occurs, StreamOk;
    forall n | 0 <= n < |stream| && stream[n].Some? && Blank(stream[n].value.display)
      ensures exists j :: 0 <= j < |drafts| && Blank(drafts[j].display)
    {
      var j := AloneStays(c, stream, |stream|, drafts, runs, n);
      assert Blank(drafts[j].display);
    }
    forall j | 0 <= j < |drafts| && Blank(drafts[j].display)
      ensures exists n :: 0 <= n < |stream| && stream[n].Some? && Blank(stream[n].value.display)
    {
      var n := DraftShowsEntry(c, stream, |stream|, drafts, runs, j);
      if !Blank(stream[n].value.display) {
        SolidWhole(stream[n].value.display, drafts[j].display);
      }
      assert Blank(stream[n].value.display);
    }
  }
}
