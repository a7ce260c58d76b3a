/** Where a slice of a block's text lies in its source. */
module Spans {
  import opened Sequences
  import opened Splitting
  import opened RawBounds
  import opened Drafts

  function CountNewlines(text: string): nat {
    if text == [] then 0 else (if text[0] == '\n' then 1 else 0) + CountNewlines(text[1..])
  }

  function Before(raw: string, i: nat): string { if i < |raw| then raw[..i] else raw }

  /** Projection rows that meet a slice. */
  function MeetingRows(rows: seq<seq<nat>>, start: nat, end: nat): (r: seq<seq<nat>>)
    ensures forall k :: 0 <= k < |r| ==> |r[k]| == 6 && r[k][1] > start && r[k][0] < end
  {
    if rows == [] then []
    else
      var rest := MeetingRows(rows[1..], start, end);
      if |rows[0]| == 6 && rows[0][1] > start && rows[0][0] < end then [rows[0]] + rest else rest
  }

  /** `_projected_raw_bounds` */
  function ProjectedBounds(rows: Option<seq<seq<nat>>>, start: nat, end: nat): Option<Range> {
    if rows.None? then None
    else
      var met := MeetingRows(rows.value, start, end);
      if met == [] then None
      else
        var first, last := met[0], met[|met| - 1];
        Some((if start <= first[0] then first[2] else first[4] + start - first[0],
              if end >= last[1] then last[3] else last[4] + end - last[0]))
  }

  /** Where a slice lies in the block's source: by its projection rows if they meet it, else by search. */
  ghost predicate BoundsFor(block: Block, text: string, start: nat, end: nat, b: Range)
    requires start <= end <= |text|
  {
    var projected := ProjectedBounds(block.projection, start, end);
    if projected.Some? then b == projected.value else Bounds(block.raw, text, start, end, b)
  }

  /** Lines and offsets of a range of the block's source; the last character does not count for lines. */
  function SpanOf(block: Block, b: Range): Span {
    var probe: nat := if b.1 > b.0 + 1 then b.1 - 1 else b.0;
    Span(block.span.startLine + CountNewlines(Before(block.raw, b.0)),
         block.span.startLine + CountNewlines(Before(block.raw, probe)),
         if block.span.offsets.None? then None
         else Some((block.span.offsets.value.0 + b.0, block.span.offsets.value.0 + b.1)))
  }

  /** What a span record accepts. */
  predicate SpanAllowed(span: Span) {
    && span.startLine <= span.endLine
    && (span.offsets.Some? ==> span.offsets.value.0 <= span.offsets.value.1)
  }

  ghost predicate Located(block: Block, text: string, range: Range, span: Span) {
    && range.0 <= range.1 <= |text| && SpanAllowed(span)
    && exists b :: BoundsFor(block, text, range.0, range.1, b) && span == SpanOf(block, b)
  }

  lemma BoundsForDetermined(block: Block, text: string, start: nat, end: nat, a: Range, b: Range)
    requires start <= end <= |text| && BoundsFor(block, text, start, end, a) && BoundsFor(block, text, start, end, b)
    ensures a == b
  {
    if ProjectedBounds(block.projection, start, end).None? {
      BoundsDetermined(block.raw, text, start, end, a, b);
    }
  }

  /** A slice has at most one span. */
  lemma LocatedDetermined(block: Block, text: string, range: Range, s: Span, t: Span)
    requires Located(block, text, range, s) && Located(block, text, range, t)
    ensures s == t
  {
    hide BoundsFor, SpanOf;
    var a :| BoundsFor(block, text, range.0, range.1, a) && s == SpanOf(block, a);
    var b :| BoundsFor(block, text, range.0, range.1, b) && t == SpanOf(block, b);
    BoundsForDetermined(block, text, range.0, range.1, a, b);
  }

  lemma {:induction false} NewlinesGrow(raw: string, i: nat, j: nat)
    requires i <= j
    ensures CountNewlines(Before(raw, i)) <= CountNewlines(Before(raw, j))
  {
    var short, long := Before(raw, i), Before(raw, j);
    assert long == short + long[|short|..];
    NewlinesConcat(short, long[|short|..]);
  }

  lemma {:induction false} NewlinesConcat(a: string, b: string)
    ensures CountNewlines(a + b) == CountNewlines(a) + CountNewlines(b)
  {
    if a == [] {
      assert a + b == b;
    } else {
      assert (a + b)[1..] == a[1..] + b;
      NewlinesConcat(a[1..], b);
    }
  }

  /** The slice can be given a span: its projection, if rows meet it, does not run backwards; otherwise the
      text occurs in the source as it is or with CRLF folded. */
  ghost predicate Locatable(block: Block, text: string, range: Range) {
    && range.0 <= range.1 <= |text|
    && var projected := ProjectedBounds(block.projection, range.0, range.1);
       if projected.Some? then block.span.offsets.Some? ==> projected.value.0 <= projected.value.1
       else Occurs(block.raw, text) || Occurs(Fold(block.raw), text)
  }

  lemma LinesAreOrdered(block: Block, b: Range)
    ensures SpanAllowed(SpanOf(block, b)) <==> (block.span.offsets.Some? ==> b.0 <= b.1)
  {
    var probe: nat := if b.1 > b.0 + 1 then b.1 - 1 else b.0;
    NewlinesGrow(block.raw, b.0, probe);
  }

  lemma BoundsOccur(raw: string, text: string, start: nat, end: nat, b: Range)
    requires start <= end <= |text| && Bounds(raw, text, start, end, b)
    ensures Occurs(raw, text) || Occurs(Fold(raw), text)
  {
    if !Occurs(raw, text) {
      var d: nat :| Leftmost(Fold(raw), text, d) && |Fold(raw[..b.0])| == d + start && |Fold(raw[..b.1])| == d + end;
      assert OccursAt(Fold(raw), text, d);
    }
  }

  /** What has a span is locatable. */
  lemma LocatedIsLocatable(block: Block, text: string, range: Range, span: Span)
    requires Located(block, text, range, span)
    ensures Locatable(block, text, range)
  {
    hide SpanOf, Bounds, Occurs, Fold;
    var b :| BoundsFor(block, text, range.0, range.1, b) && span == SpanOf(block, b);
    LinesAreOrdered(block, b);
    if ProjectedBounds(block.projection, range.0, range.1).None? {
      BoundsOccur(block.raw, text, range.0, range.1, b);
    }
  }

  lemma BoundsInOrder(raw: string, text: string, start: nat, end: nat, b: Range)
    requires start <= end <= |text| && Bounds(raw, text, start, end, b)
    ensures b.0 <= b.1
  {
  }

  /** `_span_for_text_slice`, which fails exactly when the slice is not locatable. */
  method SpanForSlice(block: Block, text: string, start: nat, end: nat) returns (r: Result<Span>)
    requires start <= end <= |text|
    ensures r.Ok? ==> Located(block, text, (start, end), r.value)
    ensures r.Ok? <==> Locatable(block, text, (start, end))
  {
    hide Bounds, SpanOf, Occurs, Fold, SpanAllowed;
    var bounds: Range;
    var projected := ProjectedBounds(block.projection, start, end);
    if projected.Some? {
      bounds := projected.value;
    } else {
      var located := TextRawBounds(block.raw, text, start, end);
      if located.Err? {
        return Err(located.error);
      }
      bounds := located.value;
      BoundsInOrder(block.raw, text, start, end, bounds);
    }
    assert BoundsFor(block, text, start, end, bounds);
    LinesAreOrdered(block, bounds);
    var span := SpanOf(block, bounds);
    if !SpanAllowed(span) {
      return Err(Invalid);
    }
    return Ok(span);
  }
}
