/** Mapping a slice of normalised text back to its span in the CRLF source. */
module RawBounds {
  import opened Sequences
  import opened Splitting

  ghost predicate OccursAt(raw: string, text: string, i: nat) {
    i + |text| <= |raw| && raw[i..i + |text|] == text
  }

  /** `raw.find(text)`: the leftmost occurrence. */
  method FindText(raw: string, text: string) returns (r: Option<nat>)
    ensures r.Some? ==> OccursAt(raw, text, r.value) && forall j :: 0 <= j < r.value ==> !OccursAt(raw, text, j)
    ensures r.None? ==> forall j :: 0 <= j ==> !OccursAt(raw, text, j)
  {
    var i := 0;
    while i + |text| <= |raw|
      invariant forall j :: 0 <= j < i ==> !OccursAt(raw, text, j)
    {
      if raw[i..i + |text|] == text {
        return Some(i);
      }
      i := i + 1;
    }
    return None;
  }

  lemma SliceOfSlice(raw: string, d: nat, text: string, start: nat, end: nat)
    requires OccursAt(raw, text, d) && start <= end <= |text|
    ensures raw[d + start..d + end] == text[start..end]
  {
    forall i | 0 <= i < end - start ensures raw[d + start..d + end][i] == text[start..end][i] {
      assert raw[d..d + |text|][start + i] == raw[d + start + i];
    }
  }

  predicate Crlf(raw: string, i: nat) {
    i + 1 < |raw| && raw[i] == '\r' && raw[i + 1] == '\n'
  }

  /** The source with every CRLF pair folded to LF. */
  function Fold(raw: string): string {
    if raw == [] then []
    else if Crlf(raw, 0) then ['\n'] + Fold(raw[2..])
    else [raw[0]] + Fold(raw[1..])
  }

  /** A position between a CR and its LF. */
  predicate Cuts(raw: string, i: nat) {
    0 < i && Crlf(raw, i - 1)
  }

  lemma {:induction false} FoldConcat(a: string, b: string)
    requires !Cuts(a + b, |a|)
    ensures Fold(a + b) == Fold(a) + Fold(b)
    decreases |a|
  {
    if a == [] {
      assert a + b == b;
    } else if Crlf(a, 0) {
      assert (a + b)[2..] == a[2..] + b;
      FoldConcat(a[2..], b);
    } else {
      assert (a + b)[1..] == a[1..] + b;
      assert (a + b)[0] == a[0];
      assert !Crlf(a + b, 0) by {
        assert |a| == 1 ==> (Cuts(a + b, 1) <==> Crlf(a + b, 0));
        assert |a| > 1 ==> (a + b)[1] == a[1];
      }
      FoldConcat(a[1..], b);
    }
  }

  lemma FoldSplit(raw: string, i: nat)
    requires i <= |raw| && !Cuts(raw, i)
    ensures Fold(raw) == Fold(raw[..i]) + Fold(raw[i..])
  {
    assert raw[..i] + raw[i..] == raw;
    FoldConcat(raw[..i], raw[i..]);
  }

  /** Positions of the source that never cut a pair and fold to `k` characters each. */
  ghost predicate PositionMap(raw: string, positions: seq<nat>) {
    forall k :: 0 <= k < |positions| ==>
      positions[k] <= |raw| && !Cuts(raw, positions[k]) && |Fold(raw[..positions[k]])| == k
  }

  /** Between two mapped positions lies exactly the folded slice. */
  lemma FoldSlice(raw: string, positions: seq<nat>, a: nat, b: nat)
    requires PositionMap(raw, positions) && a <= b < |positions| && positions[a] <= positions[b]
    ensures |Fold(raw)| >= b && Fold(raw[positions[a]..positions[b]]) == Fold(raw)[a..b]
  {
    var p, q := positions[a], positions[b];
    FoldSplit(raw, q);
    var front := raw[..q];
    assert front[..p] == raw[..p] && front[p..] == raw[p..q];
    FoldSplit(front, p);
    assert Fold(raw)[..b] == Fold(front);
  }

  /** The normalising loop: folded text and, for each of its positions, the source position. */
  method Normalize(raw: string) returns (normalized: string, positions: seq<nat>)
    ensures normalized == Fold(raw)
    ensures |positions| == |normalized| + 1 && PositionMap(raw, positions)
    ensures forall i, j :: 0 <= i < j < |positions| ==> positions[i] < positions[j]
  {
    normalized, positions := [], [];
    var i := 0;
    assert raw[..0] == [];
    while i < |raw|
      invariant i <= |raw| && !Cuts(raw, i) && normalized == Fold(raw[..i]) && |positions| == |normalized|
      invariant PositionMap(raw, positions)
      invariant forall k :: 0 <= k < |positions| ==> positions[k] < i
      invariant forall a, b :: 0 <= a < b < |positions| ==> positions[a] < positions[b]
    {
      positions := positions + [i];
      if Crlf(raw, i) {
        assert raw[..i + 2] == raw[..i] + ['\r', '\n'];
        FoldConcat(raw[..i], ['\r', '\n']);
        assert Fold(['\r', '\n']) == ['\n'] + Fold([]);
        normalized := normalized + ['\n'];
        i := i + 2;
      } else {
        assert raw[..i + 1] == raw[..i] + [raw[i]];
        FoldConcat(raw[..i], [raw[i]]);
        assert Fold([raw[i]]) == [raw[i]] + Fold([]);
        normalized := normalized + [raw[i]];
        i := i + 1;
      }
    }
    assert raw[..|raw|] == raw;
    positions := positions + [|raw|];
  }

  ghost predicate Leftmost(raw: string, text: string, d: nat) {
    OccursAt(raw, text, d) && forall j :: 0 <= j < d ==> !OccursAt(raw, text, j)
  }

  ghost predicate Occurs(raw: string, text: string) {
    exists d :: OccursAt(raw, text, d)
  }

  /** The span of a slice: the slice itself at the text's leftmost occurrence; when only the folded source
      contains the text, the span at its leftmost occurrence there, which folds to the slice and cuts no
      CRLF pair. */
  ghost predicate Bounds(raw: string, text: string, start: nat, end: nat, b: Range)
    requires start <= end <= |text|
  {
    && b.0 <= b.1 <= |raw|
    && if Occurs(raw, text) then
         raw[b.0..b.1] == text[start..end] && exists d: nat :: Leftmost(raw, text, d) && b == (d + start, d + end)
       else
         && Fold(raw[b.0..b.1]) == text[start..end] && !Cuts(raw, b.0) && !Cuts(raw, b.1)
         && exists d: nat :: Leftmost(Fold(raw), text, d)
                        && |Fold(raw[..b.0])| == d + start && |Fold(raw[..b.1])| == d + end
  }

  /** `_text_raw_bounds`: refused exactly when neither the source nor the folded source contains the text. */
  method TextRawBounds(raw: string, text: string, start: nat, end: nat) returns (r: Result<Range>)
    requires start <= end <= |text|
    ensures r.Ok? ==> Bounds(raw, text, start, end, r.value)
    ensures r.Err? <==> !Occurs(raw, text) && !Occurs(Fold(raw), text)
  {
    hide Fold, Cuts;
    var direct := FindText(raw, text);
    if direct.Some? {
      var d := direct.value;
      SliceOfSlice(raw, d, text, start, end);
      assert Leftmost(raw, text, d);
      return Ok((d + start, d + end));
    }
    var normalized, positions := Normalize(raw);
    var found := FindText(normalized, text);
    if found.None? {
      return Err(Invalid);
    }
    var d := found.value;
    if start < end {
      assert positions[d + start] < positions[d + end];
    }
    FoldSlice(raw, positions, d + start, d + end);
    SliceOfSlice(normalized, d, text, start, end);
    assert Leftmost(Fold(raw), text, d);
    return Ok((positions[d + start], positions[d + end]));
  }

  lemma FoldGrows(raw: string, p: nat, q: nat)
    requires p < q <= |raw| && !Cuts(raw, p) && !Cuts(raw, q)
    ensures |Fold(raw[..p])| < |Fold(raw[..q])|
  {
    var front := raw[..q];
    assert front[..p] == raw[..p];
    FoldSplit(front, p);
    assert front[p..] != [];
  }

  /** There is only one such span. */
  lemma BoundsDetermined(raw: string, text: string, start: nat, end: nat, a: Range, b: Range)
    requires start <= end <= |text| && Bounds(raw, text, start, end, a) && Bounds(raw, text, start, end, b)
    ensures a == b
  {
    hide Fold, Cuts, OccursAt;
    if Occurs(raw, text) {
      var d: nat :| Leftmost(raw, text, d) && a == (d + start, d + end);
      var e: nat :| Leftmost(raw, text, e) && b == (e + start, e + end);
      assert d == e;
    } else {
      var d: nat :| Leftmost(Fold(raw), text, d) && |Fold(raw[..a.0])| == d + start && |Fold(raw[..a.1])| == d + end;
      var e: nat :| Leftmost(Fold(raw), text, e) && |Fold(raw[..b.0])| == e + start && |Fold(raw[..b.1])| == e + end;
      assert d == e;
      SamePosition(raw, a.0, b.0);
      SamePosition(raw, a.1, b.1);
    }
  }

  lemma SamePosition(raw: string, p: nat, q: nat)
    requires p <= |raw| && q <= |raw| && !Cuts(raw, p) && !Cuts(raw, q)
    requires |Fold(raw[..p])| == |Fold(raw[..q])|
    ensures p == q
  {
    if p < q {
      FoldGrows(raw, p, q);
    } else if q < p {
      FoldGrows(raw, q, p);
    }
  }
}
